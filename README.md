# A verified model of the vue3ts admin client's core

The project models the state stores and helper functions behind the admin
client of the vue3ts repository, a Vue 3 and TypeScript single-page
application. At its centre is the page the smart editor is building. Around
that sit the FTP file browser, the side menu, the media and client stores, the
date picker, the constant-code tables and the string helpers. Each source file
is one Dafny module:

- `JsCore`: the JavaScript built-ins the code relies on: `splice` with its start normalisation, `indexOf`, `%` truncating toward zero, one-character `replace`, `trim`, ASCII case mapping, `toString` of whole numbers, values read from untyped records.
- `SmartEditor` (src/store/modules/smartEditor/index.ts): class `EditorStore`: the section list and its key counter, the page config, the option cache.
- `HelperCommon` (src/js/helper/common.ts): the chevron buttons as methods over an `array`, specified by functions on sequences; the list filter as functions.
- `FtpContents` (src/store/modules/ftp/Contents/index.ts): class `ContentsStore` over `ContentOptionItem` objects.
- `FtpHelper` (src/js/helper/ftp.ts): extension and type tests as functions; classes `ActionItem` and `TreeViewItem`.
- `TreeView` (src/store/modules/TreeView/index.ts): class `TreeViewStore`.
- `Menus` (src/store/modules/menus/index.ts): menus as a value tree held by class `MenusStore` with its `active` triple.
- `MediaStore` (src/store/modules/media/index.ts): class `MediaStoreState` over `MediaItem` objects.
- `ClientStore` (src/store/modules/client/index.ts): class `ClientStoreState`; browser storage as ghost fields.
- `Util` (src/js/util.ts): functions.
- `ApiResponse` (src/message/apiResponse.ts): the error-code catalogue and the partial message table.
- `Prototype` (src/js/prototype.ts): the `String.prototype` extensions as functions.
- `ConstCodes` (src/js/common.ts): the option-list walks as methods; class `CategoryNode` and the recursive tree builder.
- `DatePickerHelper` (src/components/Form/DatePicker/helper.ts): functions over calendar dates.
- `DatePickerStore` (src/components/Form/DatePicker/store.ts): class `DatePickerStoreState`.
- `RouterSmartEditor` (src/router/modules/smartEditor.ts): the `beforeEnter` guard as a function returning the redirect or the route meta.

Where the source updates objects in place, the model does too. These are
classes with `modifies` clauses, and each method states its whole new state.
Where the source computes values, the model has functions whose contracts say
what the result means. Lemmas relate operations to one another: inverses,
round trips, preserved invariants and the permutations the list operations
perform. Thrown errors that callers can reach are modelled as results, not
excluded by preconditions. Server responses, the clock and the regular
expressions are parameters of the model.

## Model

| member | source | states |
|---|---|---|
| JsCore.SpliceStart | src/store/modules/smartEditor/index.ts:160 | the position splice uses lies in [0, len]: a negative start counts from the end |
| JsCore.InsertAt | src/store/modules/smartEditor/index.ts:160 | splice(start, 0, x) adds x at the normalised position, keeping the elements before and after it |
| JsCore.RemoveAt | src/store/modules/smartEditor/index.ts:180 | splice(start, 1) removes the element at the normalised position, if there is one, shifting the later ones down |
| JsCore.RemoveInsert | src/store/modules/smartEditor/index.ts:160-180 | removing what was just inserted at an in-range position gives the list back |
| JsCore.IndexOf | src/store/modules/smartEditor/index.ts:271 | indexOf gives -1 exactly when the element is absent, and otherwise the position of its first occurrence |
| JsCore.JsRem | src/js/prototype.ts:70 | the remainder is the dividend minus the divisor times the quotient truncated toward zero, so it lies in [0, b) for a non-negative dividend and in (-b, 0] for a negative one |
| JsCore.ReplaceFirst | src/components/Form/DatePicker/helper.ts:82-88 | a one-character replace leaves a string without that character unchanged |
| JsCore.ReplaceFirstAt | src/components/Form/DatePicker/helper.ts:82-88 | replace acts on the first occurrence only: the prefix before it and everything after it are kept |
| JsCore.ReplaceAllChar | src/js/prototype.ts:9 | a global replace leaves no occurrence when the replacement has none, changes nothing when there is none, and keeps a first character that is not the pattern |
| JsCore.ReplaceAllCharSingle | src/js/prototype.ts:9 | one character becomes the replacement when it is the pattern character and is kept otherwise |
| JsCore.ReplaceAllCharAppend | src/js/prototype.ts:9 | the replacement of a concatenation is the concatenation of the replacements, so each character is replaced or kept independently and in order |
| JsCore.TrimStart | src/js/prototype.ts:8-9 | what trim drops at the front is white space, and what it keeps starts with something else |
| JsCore.TrimEnd | src/js/prototype.ts:8-9 | what trim drops at the back is white space, and what it keeps ends with something else |
| JsCore.Trim | src/js/prototype.ts:8-9 | a trimmed string neither starts nor ends with white space |
| JsCore.Lower | src/js/helper/ftp.ts:44-58 | the case-insensitive match sees each character with A to Z lowered and the length kept |
| JsCore.UpperFirst | src/store/modules/smartEditor/index.ts:275-276 | the first character is upper-cased and the rest kept |
| JsCore.DigitChar | src/components/Form/DatePicker/helper.ts:66-68 | the character of a digit value is a digit with that value |
| JsCore.NatToString | src/components/Form/DatePicker/helper.ts:66-68 | toString of a whole number is a non-empty string of digits |
| JsCore.NatToStringRoundTrip | src/components/Form/DatePicker/helper.ts:66-68 | reading the decimal text back gives the number |
| JsCore.NatToStringLength | src/components/Form/DatePicker/helper.ts:74-80 | the text has one character exactly when the number is below 10 |
| ApiResponse.DeclaredWithoutMessage | src/message/apiResponse.ts:5-37 | INVALID_TOKEN, CLIENT_ACCOUNT_NOT_FOUND and FTP_NAME_ALREADY_EXIST are declared codes with no table entry, while the table's own spellings CLIENTACCOUNT_NOT_FOUND and FTP_NAME_EXISTS have one |
| ApiResponse.InvalidBearerTokenMessageEmpty | src/message/apiResponse.ts:88 | the table lists INVALID_BEARER_TOKEN with the empty message |
| ApiResponse.S3UploadFailMessageEmpty | src/message/apiResponse.ts:127 | the table lists S3_UPLOAD_FAIL with the empty message |
| ApiResponse.BadRequestMessageEmpty | src/message/apiResponse.ts:166 | the table lists BAD_REQUEST with the empty message |
| ApiResponse.GetApiErrorMessage | src/message/apiResponse.ts:169-171 | the lookup gives a table string exactly for the listed codes, and then that code's text; it gives the inherited member exactly for a code spelled like a property of every object; every other code gives undefined |
| ApiResponse.Listed | src/message/apiResponse.ts:84-167 | the keys of the message table, all of them named codes |
| ApiResponse.MessageText | src/message/apiResponse.ts:84-167 | the values of the message table; no contract of its own (ApiResponse.InvalidBearerTokenMessageEmpty and the lemmas beside it state entries) |
| ApiResponse.InheritedCodeHasMessage | src/message/apiResponse.ts:169-171 | "constructor" and "toString" look up inherited members, so the lookup of "constructor" is truthy while an unknown code's is not |
| Util.IfEmpty | src/js/util.ts:25-27 | a non-empty value is returned as it is; the empty string gives the replacement |
| Util.IfEmptyIdempotent | src/js/util.ts:25-27 | applying ifEmpty twice with the same replacement equals applying it once; a non-empty replacement never yields '' |
| Util.GetBoolean | src/js/util.ts:295-301 | the result is booleanYN.Y (1) exactly when the argument is truthy (true or a non-empty string), else booleanYN.N (0) |
| Util.GetRegExp | src/js/util.ts:57-63 | a pattern is returned exactly when the flag names one of the table's patterns, and it is that pattern; a name every object inherits, such as "toString", passes the truthiness guard and its inherited member is returned; any other flag throws the fixed "pattern not found" message |
| Util.GetRegExpInherited | src/js/util.ts:57-63 | no pattern name is an inherited name; "toString" gives its inherited member and an unknown name such as "phone" throws |
| Util.Pad | src/js/util.ts:120-121 | a non-negative number is rendered with at least two digits that read back as the number |
| Util.Century | src/js/util.ts:127 | the 'y' field is the first two characters of the year's text, or all of it when that is shorter |
| Util.CenturyOfFourDigitYear | src/js/util.ts:127 | for a year from 1000 to 9999 the 'y' field is the two digits of year / 100 and reads back as that number |
| Util.ReplaceDateLacking | src/js/util.ts:123-129 | a format with none of Y m d y n j comes out of the date replacements unchanged |
| Util.ReplaceTimeLacking | src/js/util.ts:138-144 | a format with none of H i s h M c comes out of the time replacements unchanged |
| Util.ReplaceTimeTokenFree | src/js/util.ts:138-144 | once the date fields are in and no letter is left, the time replacements change nothing |
| Util.ReplaceShortTokenFree | src/js/util.ts:127-129 | with no letter left, the y, n and j replacements change nothing |
| Util.ReplaceAfterTokenFree | src/js/util.ts:123-144 | a token letter preceded only by digits and separators is the occurrence replaced |
| Util.FormatDefault | src/js/util.ts:108-148 | the default format 'Y-m-d' gives the year, the two-digit month and the two-digit day joined by '-' |
| Util.FormatDate | src/js/util.ts:108-148 | getDateFormat on a date's fields; no contract of its own: Util.FormatDefault, Util.FormatClock and Util.FormatFirstOccurrenceOnly state what it gives |
| Util.FormatClock | src/js/util.ts:131-144 | the format 'H:i:s' gives the two-digit hours, minutes and seconds joined by ':' |
| Util.ReplaceTimeClock | src/js/util.ts:138-144 | the time replacements turn 'H:i:s' into the padded hours, minutes and seconds |
| Util.FormatFirstOccurrenceOnly | src/js/util.ts:123-124 | only the first occurrence of a token is replaced: 'Y/Y' keeps its second Y |
| Util.AxiosErrorCatch | src/js/util.ts:271-288 | a non-axios error or an axios error without a response shows nothing; a response without data throws a TypeError; otherwise a warning toast carries the looked-up message when it is truthy (a non-empty table string or an inherited member), and the danger toast with the support text is shown when the code has no entry or an empty one |
| Util.UnlistedAndEmptyCodesGetDangerToast | src/js/util.ts:277-283 | a declared code missing from the table (INVALID_TOKEN) and a code listed with '' (BAD_REQUEST) both give the danger toast |
| Util.InheritedCodeGetsWarningToast | src/js/util.ts:275-280 | a response code "constructor" looks up the inherited member, which is truthy, so the warning toast is shown with that member as its message |
| Util.Letter | src/js/util.ts:308 | the letters array holds 'A'..'Z' |
| Util.ExcelColumnAsWrittenPastZZ | src/js/util.ts:310-315 | getExcelColumn as written gives "ZZ" for 701 but "undefinedA" for 702: the first index runs past the 26-letter array |
| Util.ExcelColumnAsWritten | src/js/util.ts:307-319 | getExcelColumn as written; no contract of its own: Util.ExcelColumnAsWrittenPastZZ and Util.ExcelColumnAsWrittenAgrees state where it is right and where it fails |
| Util.ExcelColumnAsWrittenAgrees | src/js/util.ts:307-319 | for every index from 0 to 701 the code as written gives the spreadsheet column name |
| Util.ExcelColumnName | src/js/util.ts:307-319 | a column name is a non-empty string of capital letters (the corrected, unbounded definition) |
| Util.ExcelColumnRoundTrip | src/js/util.ts:307-319 | reading back the name of an index gives that index |
| Util.ExcelColumnIndex | src/js/util.ts:307-319 | reads a column name back as its index, the inverse the corrected name is checked against; no contract of its own: Util.ExcelColumnRoundTrip and Util.ExcelColumnNameOfIndex state the correspondence |
| Util.ExcelColumnNameOfIndex | src/js/util.ts:307-319 | every column name is the name of the index it denotes, so names and indices are in one-to-one correspondence |
| Prototype.Nl2Br | src/js/prototype.ts:7-13 | the result is '' exactly when the trimmed string is empty, and otherwise the global replacement of line feeds by `<br>` in the trimmed string; it holds no line feed; a trimmed string without line feeds is returned as it is |
| Prototype.Nl2BrEnds | src/js/prototype.ts:7-13 | the result starts and ends with the first and last characters of the trimmed string |
| Prototype.Nl2BrIdempotent | src/js/prototype.ts:7-13 | applying nl2br to its own result changes nothing |
| Prototype.PatternCheckAsWritten | src/js/prototype.ts:18-36 | a table flag runs its expression; an unknown flag gives false; an inherited property name such as "toString" passes the truthiness test and then throws a TypeError |
| Prototype.PatternCheckAsWrittenThrows | src/js/prototype.ts:35 | patternCheck("toString") throws |
| Prototype.PatternCheck | src/js/prototype.ts:18-36 | every flag outside the table gives false; a table flag gives its expression's answer |
| Prototype.PatternCheckAgrees | src/js/prototype.ts:18-36 | the code as written returns a value exactly when the flag is not an inherited name, and then it agrees with the corrected check |
| Prototype.Dashed | src/js/prototype.ts:42 | inserting the two dashes adds two characters, at the stated positions |
| Prototype.DashedRoundTrip | src/js/prototype.ts:42-49 | removing the dashes from a dashed digit string gives the digits back |
| Prototype.PhoneNumber | src/js/prototype.ts:41-43 | a string that is not 9 to 11 digits is returned unchanged; otherwise 11 digits split 3-4-4, 10 digits 3-3-4 and 9 digits 2-3-4 |
| Prototype.PhoneNumberGreedy | src/js/prototype.ts:42 | the greedy groups put the first dash after three digits for 10 and 11 digits and after two for 9, and the second after seven for 11 |
| Prototype.PhoneNumberDigitsKept | src/js/prototype.ts:41-43 | phoneNumber only adds dashes: without them the input comes back |
| Prototype.CompanySerial | src/js/prototype.ts:48-50 | exactly ten digits become 3-2-5 with the digits kept; anything else is unchanged |
| Prototype.LastCodeUnit | src/js/prototype.ts:63 | charCodeAt gives a UTF-16 code unit, which is the character itself inside the Basic Multilingual Plane |
| Prototype.JosaFormat | src/js/prototype.ts:62-78 | '' for the empty string and for a last code of 0; otherwise the string followed by formats[0] when the JavaScript remainder of (code - 44032) by 28 is positive, by formats[1] when it is not, and by nothing when that entry is missing |
| Prototype.JosaHangul | src/js/prototype.ts:70 | for a Hangul syllable the first form is chosen exactly when the syllable has a final consonant |
| Prototype.JosaBelowHangul | src/js/prototype.ts:70 | below U+AC00 the remainder is never positive, so the second form is chosen |
| Prototype.JosaExamples | src/js/prototype.ts:62-78 | "책" takes "을", "나" takes "를", the empty string gives '', and a missing second form appends nothing |
| Prototype.FirstWordUpperCase | src/js/prototype.ts:106-114 | the length is kept, the first character is upper-cased and the rest is unchanged |
| Prototype.FirstWordUpperCaseIdempotent | src/js/prototype.ts:106-114 | applying it twice equals applying it once |
| SmartEditor.OnOff | src/store/modules/smartEditor/index.ts:303 | the added text is "ON" exactly when the flag is non-zero |
| SmartEditor.EditorStore.constructor | src/store/modules/smartEditor/index.ts:41-54 | the store starts with no page uid, the empty configuration, no sections, no planned index (-1), both sort flags off, the counter at 1 and an empty cache for each of the nine categories |
| SmartEditor.EditorStore.UpdatePageConfig | src/store/modules/smartEditor/index.ts:62-74 | all eleven configuration fields are copied and the page uid is untouched; afterwards isSetConfig holds exactly when the new page name and layout uid are non-empty |
| SmartEditor.EditorStore.IsSetConfig | src/store/modules/smartEditor/index.ts:100 | isSetConfig; no contract of its own: SmartEditor.EditorStore.UpdatePageConfig states when it holds |
| SmartEditor.EditorStore.SetPageUid | src/store/modules/smartEditor/index.ts:76-78 | only the page uid changes, to the argument |
| SmartEditor.EditorStore.ClearPageConfig | src/store/modules/smartEditor/index.ts:85-98 | the page uid and every configuration field are cleared (strings to '', flags to 0), so isSetConfig no longer holds |
| SmartEditor.EditorStore.SortSwitching | src/store/modules/smartEditor/index.ts:110-112 | only `sort` changes, to its negation |
| SmartEditor.EditorStore.ToggleSortMode | src/store/modules/smartEditor/index.ts:117-119 | only `sortMode` changes, to its negation |
| SmartEditor.PlannedIndex | src/store/modules/smartEditor/index.ts:125-131 | the planned index is non-negative exactly when the picked index is in the list and not the last; it is then one below the pick; otherwise it is -1, or index + 1 for an index below -1 |
| SmartEditor.EditorStore.SetAddSectionIndex | src/store/modules/smartEditor/index.ts:125-131 | only `addSectionIndex` changes, to the planned index for the current list length |
| SmartEditor.PlaceSection | src/store/modules/smartEditor/index.ts:159-163 | the list grows by exactly the new section (as a multiset), and it is appended when the planned index is negative or beyond the list |
| SmartEditor.PlaceFreshKey | src/store/modules/smartEditor/index.ts:150-163 | a section stamped with the counter keeps the keys distinct and below the counter plus one |
| SmartEditor.PlannedInsertLandsBelow | src/store/modules/smartEditor/index.ts:125-163 | after picking section i, a new section lands immediately below it |
| SmartEditor.UnplannedInsertAppends | src/store/modules/smartEditor/index.ts:125-163 | with no pick, or a pick outside the list, the new section is appended |
| SmartEditor.StickyIndexStacks | src/store/modules/smartEditor/index.ts:145-164 | setSection does not advance the planned index, so two sections added in a row at it come out in reverse order |
| SmartEditor.EditorStore.SetSection | src/store/modules/smartEditor/index.ts:145-164 | a non-empty pageSectionRelUid is written into the caller's config first; the new section carries the old counter as its key, the relation uid, the type and a copy of the config; the counter grows by exactly 1; the list is the old one with the section placed at the planned index, which itself does not change; key uniqueness is kept |
| SmartEditor.EditorStore.UpdateSection | src/store/modules/smartEditor/index.ts:171-173 | only the config of section i is replaced; an index outside the list throws and changes nothing |
| SmartEditor.EditorStore.RemoveSection | src/store/modules/smartEditor/index.ts:179-181 | the list is splice(index, 1) of the old list, with splice's negative-index rule |
| SmartEditor.RemoveKeepsKeys | src/store/modules/smartEditor/index.ts:179-181 | removal keeps keys distinct and below the counter; the result is the list without the element at the normalised position, the later ones shifted down |
| SmartEditor.EditorStore.RemoveSectionAll | src/store/modules/smartEditor/index.ts:186-188 | the list becomes empty |
| SmartEditor.EditorStore.GetSection | src/store/modules/smartEditor/index.ts:195-197 | a section is returned exactly when the index is inside the list, and it is the section there |
| SmartEditor.MoveSection | src/store/modules/smartEditor/index.ts:199-205 | a move keeps the length and the multiset of sections, for any index before the end of a non-empty list since both splices clamp their start |
| SmartEditor.MoveKeepsKeys | src/store/modules/smartEditor/index.ts:199-205 | a move keeps the keys distinct and below the counter |
| SmartEditor.MoveDownSwaps | src/store/modules/smartEditor/index.ts:199-203 | sort 1 on a section other than the last swaps it with the next one |
| SmartEditor.MoveUpSwaps | src/store/modules/smartEditor/index.ts:199-204 | any other sort value on a section other than the first swaps it with the previous one |
| SmartEditor.MoveLastDownStays | src/store/modules/smartEditor/index.ts:199-203 | moving the last section down leaves the list as it was |
| SmartEditor.MoveFirstUpWraps | src/store/modules/smartEditor/index.ts:199-204 | moving the first section up puts it just before the last section (splice at -1) |
| SmartEditor.EditorStore.SortSection | src/store/modules/smartEditor/index.ts:199-205 | the list becomes the moved list, keeping key uniqueness |
| SmartEditor.EditorStore.ResetEditor | src/store/modules/smartEditor/index.ts:209-216 | the page uid and config are cleared, both sort flags are off, the sections are gone, the counter is 0 (not its initial 1) and the planned index is -1 |
| SmartEditor.EditorStore.SetOption | src/store/modules/smartEditor/index.ts:231-233 | the cache of that category is replaced and no other category changes |
| SmartEditor.TypeByKeys | src/store/modules/smartEditor/index.ts:268-280 | the "Grp" infix is given exactly to rollingBanner, rollingList and comment; layout, page, script and template use flag + "Uid"; the others use "comp" + the capitalised flag + infix + "Uid" |
| SmartEditor.PageFieldNames | src/store/modules/smartEditor/index.ts:268-298 | page reads its uid from "pageUid", its records from "pages" and its names from "pageName" |
| SmartEditor.TemplateFieldNames | src/store/modules/smartEditor/index.ts:268-298 | template uses "templateUid" and reads its records from "templates" |
| SmartEditor.InputFormFieldNames | src/store/modules/smartEditor/index.ts:268-298 | inputForm uses "compInputFormUid" and reads its records from "inputForms" |
| SmartEditor.RollingBannerFieldNames | src/store/modules/smartEditor/index.ts:268-298 | rollingBanner uses "compRollingBannerGrpUid", "rollingBannerGrps" and "rollingBannerGrpName" |
| SmartEditor.CommentFieldNames | src/store/modules/smartEditor/index.ts:268-298 | comment uses "compCommentGrpUid" with the "Grp" infix and reads its records from "commentGrps" |
| SmartEditor.CategoryListed | src/store/modules/smartEditor/index.ts:219-229 | every category has a cache in the initial option table |
| SmartEditor.OptionOf | src/store/modules/smartEditor/index.ts:296-310 | an entry's value is the record's uid field and its text the name field; page appends " (pageCode)" and sets add to "ON"/"OFF" from isOn and code to pageCode; template sets add to sourceCode; the others have neither |
| SmartEditor.OptionsOf | src/store/modules/smartEditor/index.ts:296 | one entry per record, in record order |
| SmartEditor.RefreshedExactly | src/store/modules/smartEditor/index.ts:287-318 | the cache of the category is replaced only when the response carries its success code and a non-empty record list, and then by the mapped records; no other category ever changes, and a failed fetch or another code changes nothing |
| SmartEditor.Refreshed | src/store/modules/smartEditor/index.ts:287-318 | the option table after one response; no contract of its own: SmartEditor.RefreshedExactly states when and how it changes |
| SmartEditor.SuccessCodesDistinct | src/store/modules/smartEditor/index.ts:247-257 | distinct categories have distinct success codes |
| SmartEditor.EditorStore.OptionCall | src/store/modules/smartEditor/index.ts:287-318 | the cache becomes the refreshed cache; the error handed to axiosErrorCatch is the thrown one for a failed fetch, a TypeError when a successful response lacks the record list, and none otherwise |
| SmartEditor.EditorStore.AddPageOption | src/store/modules/smartEditor/index.ts:324-332 | the entry {pageName, uid, ON/OFF} is prepended to the page options, no other category changes, the page uid becomes uid, and looking uid up then gives the page name |
| SmartEditor.Renamed | src/store/modules/smartEditor/index.ts:338-346 | the list keeps its length and every entry whose value is the uid is renamed, not only the first, since `return` inside forEach does not stop the loop; the others are kept |
| SmartEditor.Rename | src/store/modules/smartEditor/index.ts:340-345 | one entry of changePageOption's forEach; no contract of its own: SmartEditor.Renamed states it entry by entry |
| SmartEditor.EditorStore.ChangePageOption | src/store/modules/smartEditor/index.ts:338-346 | the page options become the renamed list and no other category changes |
| SmartEditor.OptionNameFirst | src/store/modules/smartEditor/index.ts:354-357 | getOptionName gives the text of the first entry with that value |
| SmartEditor.EditorStore.GetOptionName | src/store/modules/smartEditor/index.ts:354-357 | getOptionName on the category's cache; no contract of its own: SmartEditor.OptionNameFirst and SmartEditor.OptionNameMissing state what the lookup gives |
| SmartEditor.OptionNameMissing | src/store/modules/smartEditor/index.ts:354-357 | with no entry for that value the name is '' |
| SmartEditor.RenamedLookup | src/store/modules/smartEditor/index.ts:338-357 | after changePageOption(u), looking up a listed u gives the new page name |
| SmartEditor.RenamedOtherLookup | src/store/modules/smartEditor/index.ts:338-357 | changePageOption(u) does not change what any other uid looks up to |
| SmartEditor.SectionConfig.constructor | src/store/modules/smartEditor/index.ts:145 | the configuration object holds the given fields |
| SmartEditor.InsertFreshKey | src/store/modules/smartEditor/index.ts:159-163 | inserting a section whose key no other section has keeps the keys distinct |
| SmartEditor.RollingBannerKeys | src/store/modules/smartEditor/index.ts:268-280 | the rolling-banner flag is rollingBanner and its uid key compRollingBannerGrpUid with the Grp suffix |
| SmartEditor.RollingBannerGrp | src/store/modules/smartEditor/index.ts:268-280 | the rolling-banner category takes the Grp suffix and its flag upper-cases to RollingBanner |
| HelperCommon.IsContains | src/js/helper/common.ts:19 | true exactly when some element of the array equals the value |
| HelperCommon.RowMatches | src/js/helper/common.ts:172-189 | with a search field, a row that has the field matches exactly when its value contains the text, and a row without it throws; without a field, a match means some non-empty option key's value contains the text, a miss means none does, and a throw means a non-empty key is missing from the row |
| HelperCommon.AnyKeyMatches | src/js/helper/common.ts:176-189 | the loop over the option keys matches when some non-empty key's value contains the text, stopping at the first such key |
| HelperCommon.OnFilter | src/js/helper/common.ts:171-190 | the filter returns a result exactly when no row throws; every row it keeps matches and comes from the input, and every matching row is kept |
| HelperCommon.OnFilterSingle | src/js/helper/common.ts:171-190 | a single row is kept when it matches, dropped when it does not, and makes the filter throw when a field it reads is missing |
| HelperCommon.OnFilterAppend | src/js/helper/common.ts:171-190 | filtering a concatenation gives the concatenation of the two results, in order and with multiplicity, and throws when either part throws |
| HelperCommon.Picked | src/js/helper/common.ts:271-272 | filtering by the check box gives at most as many rows |
| HelperCommon.PickedAppend | src/js/helper/common.ts:271-272 | filtering distributes over concatenation |
| HelperCommon.PickedPicked | src/js/helper/common.ts:271-272 | filtering twice changes nothing, and filtering the other state gives nothing |
| HelperCommon.PickedSplits | src/js/helper/common.ts:271-272 | the checked and the unchecked rows together are exactly the rows (as a multiset) |
| HelperCommon.KeepsClassesPermutes | src/js/helper/common.ts:270-302 | a result that keeps the checked rows in order and the unchecked rows in order is a rearrangement of the input |
| HelperCommon.AllDownKeepsClasses | src/js/helper/common.ts:270-274 | double-down keeps both classes in their relative order and is a permutation |
| HelperCommon.AllUpKeepsClasses | src/js/helper/common.ts:298-302 | double-up keeps both classes in their relative order and is a permutation |
| HelperCommon.AllDownIdempotent | src/js/helper/common.ts:270-274 | pressing double-down twice is the same as pressing it once |
| HelperCommon.Combine | src/js/helper/common.ts:304-316 | _combineItem keeps the length |
| HelperCommon.CombineBlocked | src/js/helper/common.ts:305-311 | a target outside the list, or a checked target, changes nothing |
| HelperCommon.CombineNext | src/js/helper/common.ts:313-315 | moving a row to the unchecked row after it swaps the two |
| HelperCommon.CombinePrevious | src/js/helper/common.ts:313-315 | moving a row to the unchecked row before it swaps the two |
| HelperCommon.MoveBack | src/js/helper/common.ts:314-315 | splicing an element out and back in one place earlier swaps it with its predecessor |
| HelperCommon.PickedPairSwap | src/js/helper/common.ts:270-302 | swapping two adjacent rows of different states does not change either class's filtered list |
| HelperCommon.SwapKeepsClasses | src/js/helper/common.ts:276-296 | swapping a checked row with an unchecked neighbour keeps both classes |
| HelperCommon.CombineDownKeeps | src/js/helper/common.ts:282 | moving a checked row down keeps both classes |
| HelperCommon.CombineUpKeeps | src/js/helper/common.ts:293 | moving a checked row up keeps both classes |
| HelperCommon.DownStep | src/js/helper/common.ts:279-282 | one step of clickDown's loop keeps the length |
| HelperCommon.UpStep | src/js/helper/common.ts:290-293 | one step of clickUp's loop keeps the length |
| HelperCommon.DownStepSwaps | src/js/helper/common.ts:279-282 | a checked row above an unchecked one trades places with it |
| HelperCommon.DownStepStays | src/js/helper/common.ts:279-282 | an unchecked row, the last row, or a checked row above a checked one stays put |
| HelperCommon.UpStepSwaps | src/js/helper/common.ts:290-293 | a checked row below an unchecked one trades places with it |
| HelperCommon.UpStepStays | src/js/helper/common.ts:290-293 | an unchecked row, the first row, or a checked row below a checked one stays put |
| HelperCommon.DownPass | src/js/helper/common.ts:278-283 | the loop from the last position to the first keeps the length |
| HelperCommon.UpPass | src/js/helper/common.ts:289-294 | the loop from the first position to the last keeps the length |
| HelperCommon.DownPassKeepsClasses | src/js/helper/common.ts:276-285 | clickDown keeps both classes in their relative order |
| HelperCommon.UpPassKeepsClasses | src/js/helper/common.ts:287-296 | clickUp keeps both classes in their relative order |
| HelperCommon.DownMovesBlock | src/js/helper/common.ts:276-285 | because the scan runs last to first, a run of checked rows moves down past the unchecked row below it as a block |
| HelperCommon.UpMovesBlock | src/js/helper/common.ts:287-296 | because the scan runs first to last, a run of checked rows moves up past the unchecked row above it as a block |
| HelperCommon.WriteBack | src/js/helper/common.ts:273 | splice(0, length, ...res) leaves the array holding exactly res |
| HelperCommon.ClickDoubbleDown | src/js/helper/common.ts:270-274 | the array becomes the unchecked rows in order followed by the checked rows in order, a permutation keeping both classes |
| HelperCommon.ClickDoubbleUp | src/js/helper/common.ts:298-302 | the array becomes the checked rows in order followed by the unchecked rows in order, a permutation keeping both classes |
| HelperCommon.ClickDown | src/js/helper/common.ts:276-285 | the array becomes the result of the last-to-first pass, a permutation keeping both classes |
| HelperCommon.ClickUp | src/js/helper/common.ts:287-296 | the array becomes the result of the first-to-last pass, a permutation keeping both classes |
| FtpContents.ContentOptionItem.constructor | src/store/modules/ftp/Contents/index.ts:36 | a wrapped entry carries the item with `show` and `checked` false |
| FtpContents.Views | src/store/modules/ftp/Contents/index.ts:85-89 | the store's view of the list has one view per entry, in order |
| FtpContents.AllChecked | src/store/modules/ftp/Contents/index.ts:59-73 | after a select-all pass the list keeps its length and each entry is changed as the pass rule says |
| FtpContents.Flipped | src/store/modules/ftp/Contents/index.ts:67-71 | the entries the pass changes are at most as many as were scanned |
| FtpContents.FlippedOnCount | src/store/modules/ftp/Contents/index.ts:59-75 | ticking all appends exactly as many entries as there were visible files not yet ticked |
| FtpContents.AllCheckedCounts | src/store/modules/ftp/Contents/index.ts:59-73 | select-all keeps the number of visible files and leaves all of them ticked; deselect-all leaves none ticked |
| FtpContents.TickThenUntick | src/store/modules/ftp/Contents/index.ts:42-52 | unticking an entry that ticking just appended gives the old ticked list back when the entry was not in it, and the same multiset in any case |
| FtpContents.ContentsStore.constructor | src/store/modules/ftp/Contents/index.ts:12-18 | the store starts with no force-reload, and empty directory, list, ticked list and roles |
| FtpContents.ContentsStore.SetRoles | src/store/modules/ftp/Contents/index.ts:20-22 | the roles become exactly the argument |
| FtpContents.ContentsStore.SetIsForceReload | src/store/modules/ftp/Contents/index.ts:81-83 | only the force-reload flag changes, to the argument |
| FtpContents.ContentsStore.SetDirectory | src/store/modules/ftp/Contents/index.ts:24-30 | the directory becomes one new, distinct, unshown entry per item, in order |
| FtpContents.ContentsStore.SetList | src/store/modules/ftp/Contents/index.ts:32-38 | the list becomes one new, distinct, unshown and unticked entry per item, in order; the ticked list is left as it was |
| FtpContents.ContentsStore.SetListChecked | src/store/modules/ftp/Contents/index.ts:40-54 | a non-FILE entry changes nothing; a FILE entry takes the value, and ticking appends it to the ticked list without a duplicate check, while unticking removes its first identical occurrence, if any, keeping the rest in order |
| FtpContents.CheckAll | src/store/modules/ftp/Contents/index.ts:59-73 | the loop sets every visible FILE entry to the value and, when ticking, collects in list order exactly the entries it changed |
| FtpContents.ContentsStore.SetListAllChecked | src/store/modules/ftp/Contents/index.ts:56-79 | the list is updated as the pass says; ticking appends the changed entries to the ticked list, unticking empties it; when the ticked list held exactly the ticked visible files, gtIsTotalChecked holds after ticking all |
| FtpContents.ContentsStore.IsTotalChecked | src/store/modules/ftp/Contents/index.ts:85-89 | gtIsTotalChecked; no contract of its own: FtpContents.ContentsStore.SetListAllChecked states when ticking all makes it hold |
| FtpContents.ContentsStore.CheckedSortedIndex | src/store/modules/ftp/Contents/index.ts:91-95 | -1 exactly when the entry is not in the ticked list, otherwise the position of its first identical occurrence |
| FtpContents.ContentsStore.HasRole | src/store/modules/ftp/Contents/index.ts:97-101 | holds exactly when the role is among the roles |
| FtpContents.Wrap | src/store/modules/ftp/Contents/index.ts:28-36 | mapping makes one new, distinct, unshown and unticked entry per item, in order |
| FtpHelper.LastDot | src/js/helper/ftp.ts:17 | the position of the last '.', or -1 when there is none |
| FtpHelper.Exec | src/js/helper/ftp.ts:34 | exec with a `\.{1}(K{min,})$` pattern finds a match exactly when one exists, and the match is unique: its dot is the last dot |
| FtpHelper.GetExtension | src/js/helper/ftp.ts:33-36 | '' when extensionRegExp does not match; otherwise index 0 gives the dot with the extension and index 1 the run of two or more letters after the last dot; any other index gives undefined |
| FtpHelper.IsImage | src/js/helper/ftp.ts:44-47 | holds exactly when the lower-cased name ends in '.' and three or more characters of the class j, p, g, e, n, i, f and the vertical bar |
| FtpHelper.IsCode | src/js/helper/ftp.ts:55-58 | holds exactly when the lower-cased name ends in '.' and two or more characters of the class j, s, c and the vertical bar |
| FtpHelper.ImageUpperCase | src/js/helper/ftp.ts:45 | the name is lower-cased first, so "a.JPEG" is an image |
| FtpHelper.ImageAnyRun | src/js/helper/ftp.ts:19 | the character class accepts ".pig", which is no image type |
| FtpHelper.ImageTooShort | src/js/helper/ftp.ts:19 | "d.jp" is not an image: the class needs three characters |
| FtpHelper.ImageOtherLetters | src/js/helper/ftp.ts:19 | "c.bmp" is not an image |
| FtpHelper.CodeAnyRun | src/js/helper/ftp.ts:20 | the character class accepts "c.ss" |
| FtpHelper.CodeOtherLetters | src/js/helper/ftp.ts:20 | "d.ts" is not code |
| FtpHelper.InputFileAccepts | src/js/helper/ftp.ts:68-87 | the list is the four image types, then the two code types, then ".pdf", each block present exactly when its flag is set |
| FtpHelper.DefaultAccepts | src/js/helper/ftp.ts:68-72 | the defaults give the six image and code types |
| FtpHelper.ContentIconOf | src/js/helper/ftp.ts:180-192 | folder exactly when the title has no extension; else image exactly when isImage; else code exactly when isCode; else text |
| FtpHelper.SetResultStatus | src/js/helper/ftp.ts:204-222 | the call throws exactly when a code >= 0 is already recorded, and then nothing changes; otherwise the code is recorded, the icon is success exactly for 200 and pending exactly for -1, and any other code stores the message |
| FtpHelper.Settled | src/js/helper/ftp.ts:205-207 | once a code >= 0 is recorded, every later call throws and the status stays as it is |
| FtpHelper.FirstFinalCodeStays | src/js/helper/ftp.ts:204-222 | in a run of calls from an open status, the first code >= 0 is the one that stays, and exactly the calls after it throw |
| FtpHelper.ActionItem.constructor | src/js/helper/ftp.ts:133-150 | a new item has the name as title and the icon the title setter picks, status code -1 with the pending icon and no message, progress 0 and the given file |
| FtpHelper.ActionItem.ErrorMessageText | src/js/helper/ftp.ts:156-158 | the stored message, or '' before any failure |
| FtpHelper.ActionItem.SetTitle | src/js/helper/ftp.ts:180-192 | the title and its content icon change, nothing else |
| FtpHelper.ActionItem.SetResult | src/js/helper/ftp.ts:204-222 | the status and the thrown flag are what SetResultStatus says; title, icon, progress and file are unchanged |
| FtpHelper.ActionItem.ProgressPercent | src/js/helper/ftp.ts:230-236 | 0 for no progress, the whole part of the progress below 100, and 100 from 100 on; a non-negative progress gives 0..100 |
| FtpHelper.TreeViewItem.constructor | src/js/helper/ftp.ts:248-262 | a new node has the title, is closed and inactive, has no parent or children, and its depth is the argument unless that is 0 or undefined, which give 1 |
| FtpHelper.AddItems | src/js/helper/ftp.ts:277-305 | one new node per entry, in order, each with depth 1 at the root or the parent's depth + 1, the given parent, and children built the same way exactly when the entry has a children list; nodes are distinct and do not share descendants; a parent without a children list gets [] once there is an entry |
| FtpHelper.NewNode | src/js/helper/ftp.ts:290-301 | one loop step builds a fresh node for the entry, with its subtree, under the parent |
| FtpHelper.LinkChildren | src/js/helper/ftp.ts:299 | `ltem.children = result` makes the built nodes the node's children |
| FtpHelper.Replay | src/js/helper/ftp.ts:204-222 | a run of setResult calls throws at most once per call |
| TreeView.TreeViewStore.constructor | src/store/modules/TreeView/index.ts:11-12 | the store starts with an empty root list and no tracked active items |
| TreeView.TreeViewStore.AddItems | src/store/modules/TreeView/index.ts:14-21 | with a parent, the parent's children become the built nodes and the root list is unchanged; without one, the root list becomes the built depth-1 nodes; the tracked items are unchanged |
| TreeView.TreeViewStore.ChangeOpend | src/store/modules/TreeView/index.ts:22-24 | only `opend` of the given node changes, to the value |
| TreeView.TreeViewStore.ChangeActive | src/store/modules/TreeView/index.ts:25-34 | every previously tracked node other than the given one ends inactive, the given node's `active` becomes the value, and the tracked list becomes [node] for true and is kept for false |
| Menus.FirstOpen | src/store/modules/menus/index.ts:41-49 | the first index from i on of an active item with children, or the length, with no such item before it |
| Menus.ReleasedFrom | src/store/modules/menus/index.ts:40-52 | releasing keeps the length of the list |
| Menus.ReleasedFromSpec | src/store/modules/menus/index.ts:40-52 | the active items are shut (inactive, height 0) up to and including the first active item with children, whose children are released in turn; the loop then breaks and later items are kept as they were |
| Menus.ReleasedShape | src/store/modules/menus/index.ts:40-52 | releasing keeps every item, title and path at every level |
| Menus.Released | src/store/modules/menus/index.ts:40-52 | releaseMenu on the whole tree keeps the number of top-level items; Menus.ReleasedShape states that every item is kept |
| Menus.ReleaseMenu | src/store/modules/menus/index.ts:40-52 | the loop with its early break computes the released tree |
| Menus.ChainReleased | src/store/modules/menus/index.ts:40-52 | when the active items form a single chain from the top, releasing leaves nothing active |
| Menus.FirstActive | src/store/modules/menus/index.ts:42 | the first active index from i on, or the length, with no active item before it |
| Menus.NoneActiveChain | src/store/modules/menus/index.ts:40-52 | a tree with nothing active is a chain with an empty active path |
| Menus.FirstActiveIs | src/store/modules/menus/index.ts:42 | the first active index is k when k is active and nothing before it from i on is |
| Menus.Lift | src/store/modules/menus/index.ts:60-82 | opening item k of a list with nothing active, over a chain below it, gives a chain whose active path starts with k |
| Menus.ShapeKeeps | src/store/modules/menus/index.ts:60-82 | the indices activeMenu dereferences still exist in any tree of the same shape, such as the released one |
| Menus.Activate | src/store/modules/menus/index.ts:60-82 | only the main item changes at the top: it becomes active with height 42 times its child count, plus 42 times the sub item's child count when a sub item is selected; the sub item becomes active and, if it has children, gets height 42 times their count; the final item becomes active; nothing else changes |
| Menus.ActivatedChain | src/store/modules/menus/index.ts:57-83 | after activeMenu on a tree whose active items form a chain, the active items are exactly main, then sub if set, then final if set |
| Menus.Activated | src/store/modules/menus/index.ts:57-83 | activeMenu keeps the number of top-level items and opens the main item; Menus.ActivatedChain states which items end up active |
| Menus.Chosen | src/store/modules/menus/index.ts:102-109 | a new index is recorded at its depth, the shallower entries are kept, and the deeper ones are reset to -1 |
| Menus.FindPath | src/store/modules/menus/index.ts:122-136 | the index of the first item whose path equals the segment, or -1 exactly when there is none |
| Menus.MenusStore.constructor | src/store/modules/menus/index.ts:17-31 | the store starts with no menus and the active triple [-1, -1, -1] |
| Menus.MenusStore.SetMenus | src/store/modules/menus/index.ts:20-28 | the media tree for auth level MEDIA, the member tree for MEMBER, and the full tree for anything else, including no stored level |
| Menus.MenusStore.ActiveMenu | src/store/modules/menus/index.ts:57-83 | the tree becomes the released tree with the selection opened |
| Menus.MenusStore.SetActive | src/store/modules/menus/index.ts:90-112 | the same index again keeps the triple and toggles the top-level item menus[index]: it is closed if active, otherwise the selection is reopened; a new index updates the triple as Chosen says and reopens the selection |
| Menus.MenusStore.SetActiveMenu | src/store/modules/menus/index.ts:119-137 | the active triple becomes the shallower selections followed by the indices of the walk down the levels, each the first item whose path equals that level's segment; with no match at the first level nothing changes; the tree is opened for the new selection exactly when the walk ends at a leaf and is left as it was otherwise |
| Menus.Walk | src/store/modules/menus/index.ts:119-137 | the walk records at most one index per remaining level; it is empty exactly when no item of the first list matches, and otherwise starts with the first matching index |
| Menus.WalkFound | src/store/modules/menus/index.ts:125-132 | at a matching leaf the walk is that index and ends at a leaf; at a matching item with children it continues in the children |
| Menus.Recorded | src/store/modules/menus/index.ts:126 | the triple keeps the shallower indices, then holds the walk, then -1 |
| Menus.RecordedStep | src/store/modules/menus/index.ts:126-129 | recording one index and then the walk below it is recording the longer walk |
| Menus.PlacedStep | src/store/modules/menus/index.ts:128-129 | descending into the children of a matched item meets the conditions of the recursive call |
| Menus.PlacedLeaf | src/store/modules/menus/index.ts:130-131 | after a match the selection names existing items, as activeMenu needs |
| MediaStore.MediaItem.constructor | src/store/modules/media/index.ts:13-15 | a fetched media record holds the given uid, name, dates and code count |
| MediaStore.FirstWithName | src/store/modules/media/index.ts:59 | the index of the first media with that name, or -1 exactly when there is none |
| MediaStore.FirstWithUid | src/store/modules/media/index.ts:71 | the index of the first media with that uid, or -1 exactly when there is none |
| MediaStore.GetMediaUid | src/store/modules/media/index.ts:58-62 | the uid of the first media with that name, or the empty string when no media has it |
| MediaStore.GetMediaName | src/store/modules/media/index.ts:70-74 | the name of the first media with that uid, or the empty string when no media has it |
| MediaStore.NameUidRoundTrip | src/store/modules/media/index.ts:58-74 | with distinct uids, looking up the name of the uid found for a listed name gives that name back |
| MediaStore.Occurrences | src/store/modules/media/index.ts:31-35 | the number of places among the first k that hold a given media is at most k, and 0 exactly when none does |
| MediaStore.OccurrencesOfDistinct | src/store/modules/media/index.ts:31-35 | in a list of distinct media each one is held once, so the loop moves its count once |
| MediaStore.MediaStoreState.constructor | src/store/modules/media/index.ts:5-6 | the store starts with an empty list and a total of 0 |
| MediaStore.MediaStoreState.UpdateMediaList | src/store/modules/media/index.ts:13-15 | the new media go after the existing ones |
| MediaStore.MediaStoreState.ResetMediaList | src/store/modules/media/index.ts:20-22 | the list becomes empty and the total is kept |
| MediaStore.MediaStoreState.PlusTotal | src/store/modules/media/index.ts:28-36 | the total goes up by one and every media with that uid gains one per place the list holds it; the others and the list itself are unchanged |
| MediaStore.MediaStoreState.MinusTotal | src/store/modules/media/index.ts:42-50 | the total goes down by one and every media with that uid loses one per place the list holds it; the others and the list itself are unchanged |
| MediaStore.MediaStoreState.PlusThenMinus | src/store/modules/media/index.ts:28-50 | minusTotal after plusTotal with the same uid restores the total and every code count |
| ClientStore.AuthTextDistinct | src/constants/common.ts:66-85 | the four auth levels have four distinct display names |
| ClientStore.AuthText | src/constants/common.ts:66-85 | the TXT of each AUTH level; no contract of its own: ClientStore.AuthTextDistinct states that the names differ |
| ClientStore.LastMatch | src/store/modules/client/index.ts:59-73 | the index of the last client with that id, which the forEach selects last, or none exactly when no client has it |
| ClientStore.ClientStoreState.constructor | src/store/modules/client/index.ts:15-35 | the store starts with no clients, an empty account at auth level MEMBER, and nothing saved |
| ClientStore.ClientStoreState.SetClientList | src/store/modules/client/index.ts:23-25 | the client list becomes the given items |
| ClientStore.ClientStoreState.SetClientAccount | src/store/modules/client/index.ts:41-52 | the name, id, domains and auth level are copied; with save the id and the level are also stored, and without it the stored values are kept |
| ClientStore.ClientStoreState.SetClientAccountByClientId | src/store/modules/client/index.ts:58-75 | with no client of that id nothing changes; otherwise the account becomes the last such client and its id and level are stored |
| ClientStore.ClientStoreState.SetClientAccountDomain | src/store/modules/client/index.ts:77-79 | only the domains change |
| ClientStore.ClientStoreState.AuthLevelName | src/store/modules/client/index.ts:84 | the display name of the current auth level, which is 멤버 for MEMBER |
| ClientStore.ClientStoreState.Clear | src/store/modules/client/index.ts:87-92 | the list, name and id are emptied and the level reset to MEMBER, while the domains are kept |
| RouterSmartEditor.PathIndex | src/router/modules/smartEditor.ts:125-126 | the position of the first COMP_PATH entry with that path type, or -1 exactly when there is none |
| RouterSmartEditor.CodeOfKey | src/router/modules/smartEditor.ts:120-126 | an undefined key finds no code; a code found is listed and has that key as its value; none is found only when no code has it |
| RouterSmartEditor.PreviewOf | src/router/modules/smartEditor.ts:135-152 | the five accepted kinds select the preview of the same name, and every other value leaves it null |
| RouterSmartEditor.KeysAreCodes | src/router/modules/smartEditor.ts:108-124 | each COMP_PATH key finds the code listed at the same place |
| RouterSmartEditor.FoundKeyHasCode | src/router/modules/smartEditor.ts:120-130 | a key found for a path type always has a code, so the redirect is taken only for unknown types |
| RouterSmartEditor.ResolveComponent | src/router/modules/smartEditor.ts:125-152 | the guard redirects to /smart/components/input-form exactly when no COMP_PATH entry has the type; otherwise the meta gets a listed code, its text as title, and the preview of its own kind |
| RouterSmartEditor.Resolve | src/router/modules/smartEditor.ts:128-133 | no code found redirects to /smart/components/input-form; a code found goes to the meta with its text as title |
| RouterSmartEditor.ResolvePathType | src/router/modules/smartEditor.ts:108-152 | the i-th path type resolves to the i-th code, title and preview |
| RouterSmartEditor.ResolveUnknownType | src/router/modules/smartEditor.ts:128-130 | a code value such as INPUT_FORM, or the empty type, redirects to the input form |
| DatePickerStore.SetCell | src/components/Form/DatePicker/store.ts:61-64 | after the write the addressed cell holds the value |
| DatePickerStore.CellOfSetCell | src/components/Form/DatePicker/store.ts:61-64 | a write changes the addressed cell and leaves the other three as they were |
| DatePickerStore.CellsDetermine | src/components/Form/DatePicker/store.ts:20-42 | two states that agree on all four cells are equal |
| DatePickerStore.SetCellSame | src/components/Form/DatePicker/store.ts:61-64 | writing back a cell's own value changes nothing |
| DatePickerStore.SetCellTwice | src/components/Form/DatePicker/store.ts:61-64 | a second write to a cell overrides the first |
| DatePickerStore.DatePickerStoreState.constructor | src/components/Form/DatePicker/store.ts:8-42 | both dates and both selections start empty, today's year, month and day are recorded, and both sides of the current and the before state show today's month |
| DatePickerStore.DatePickerStoreState.SetStartDate | src/components/Form/DatePicker/store.ts:47-49 | only the start date changes, to the value |
| DatePickerStore.DatePickerStoreState.SetEndDate | src/components/Form/DatePicker/store.ts:51-53 | only the end date changes, to the value |
| DatePickerStore.DatePickerStoreState.SetDateState | src/components/Form/DatePicker/store.ts:61-64 | the cell's old value moves into the before state and the cell takes the value; every other cell of both states is unchanged |
| DatePickerStore.DatePickerStoreState.SetSelected | src/components/Form/DatePicker/store.ts:71-73 | only the selection of the given side changes |
| DatePickerStore.DatePickerStoreState.SetDateStateTwice | src/components/Form/DatePicker/store.ts:61-64 | after two writes to one cell the before state holds the first value and the current state the second |
| ConstCodes.Props | src/js/common.ts:12-13 | a code object's keys in for-in order: VAL, then TXT, then one per sub-code in declaration order |
| ConstCodes.OptionsOf | src/js/common.ts:12-19 | one option per sub-code, in order, with the sub-code's TXT as text and its VAL as value |
| ConstCodes.GetConstCodeOptions | src/js/common.ts:8-22 | the key walk that skips VAL and TXT yields exactly the option list of the table |
| ConstCodes.FindSub | src/js/common.ts:26 | the sub-code stored under the key, or none exactly when the table has no such key |
| ConstCodes.GetConstCodeCategoryOptions | src/js/common.ts:24-38 | an unknown category gives no options; a known one gives the option list of that category |
| ConstCodes.SubKeysOk | src/js/common.ts:24-38 | a category found in a table whose keys are distinct has distinct keys itself |
| ConstCodes.ClientCategoryKeysOk | src/constants/common.ts:262-441 | the CLIENT_CATEGORY table and each of its categories hold each key once |
| ConstCodes.GenderOptions | src/constants/common.ts:198-213 | the GENDER options are 남/M, 여/F and 남/여/A, in that order |
| ConstCodes.PlainList | src/js/common.ts:79-88 | one plain object per code |
| ConstCodes.PlainListAt | src/js/common.ts:79-88 | the j-th plain object is the one of the j-th code |
| ConstCodes.TreeMatchesOptions | src/js/common.ts:8-124 | the category tree and the option lists agree: the j-th category carries the j-th option's text and value, and its children carry the options of that category in order |
| ConstCodes.ClientCategoryTree | src/constants/common.ts:262-441 | the CLIENT_CATEGORY tree has ten categories below its root |
| ConstCodes.CategoryNode.constructor | src/js/common.ts:46-50 | a node holds the given VAL and TXT, no parent and no children list |
| ConstCodes.CategoryNode.PlainFrom | src/js/common.ts:83-85 | one plain object for each child from the i-th on |
| ConstCodes.CategoryNode.PlainFromAt | src/js/common.ts:83-85 | the j-th of those is the plain object of the (i+j)-th child |
| ConstCodes.CategoryNode.AddChild | src/js/common.ts:66-77 | a fresh node with the given VAL and TXT and this node as parent is appended to the children, which start as [] when missing, and returned |
| ConstCodes.CategoryNode.AddItem | src/js/common.ts:54-64 | this node gets a children list if it had none; a fresh node sharing this node's parent is pushed onto the parent's list only when the parent has one; this node is returned |
| ConstCodes.CategoryNode.ToPlainObj | src/js/common.ts:79-88 | the node's TXT, VAL and the plain objects of its children in order, no children list giving an empty one |
| ConstCodes.BuiltExtend | src/js/common.ts:105-117 | appending a finished child for the next code keeps the built-children invariant of the loop |
| ConstCodes.BuiltNode | src/js/common.ts:104-118 | a node holding exactly the children built for a code's sub-codes flattens to that code |
| ConstCodes.LeafPlain | src/js/common.ts:114 | a node with no children list flattens to a code with only VAL and TXT |
| ConstCodes.CreateCategoryNode | src/js/common.ts:104-118 | the node receives one child per sub-code, in order, each filled in turn, and then flattens to the code |
| ConstCodes.AddCategory | src/js/common.ts:110-116 | one pass of that loop appends one fresh child and keeps the invariant |
| ConstCodes.FillCategory | src/js/common.ts:114-116 | a child is filled recursively only when its code has keys besides VAL and TXT, and then flattens to its code |
| ConstCodes.UseConstCodeCategory | src/js/common.ts:96-124 | building the tree from a table and flattening it gives the table's own shape |
| DatePickerHelper.DaysInMonth | src/components/Form/DatePicker/helper.ts:63 | February has 29 days exactly in leap years and 28 otherwise; April, June, September and November have 30; the other months 31 |
| DatePickerHelper.IsLeapYear | src/components/Form/DatePicker/helper.ts:115 | the Gregorian leap rule the Date object follows; no contract of its own: DatePickerHelper.DaysInMonth and DatePickerHelper.LastDayOfMonth state February's length by it |
| DatePickerHelper.NextDay | src/components/Form/DatePicker/helper.ts:63 | the day after a real date is a real date, in the same year except after 31 December, which gives 1 January of the next year |
| DatePickerHelper.PrevDay | src/components/Form/DatePicker/helper.ts:63 | the day before a real date is a real date, in the same year except before 1 January, which gives 31 December of the year before |
| DatePickerHelper.PrevNext | src/components/Form/DatePicker/helper.ts:63 | one day forwards and one day back cancel out, in either order |
| DatePickerHelper.AddDays | src/components/Form/DatePicker/helper.ts:61-64 | shifting a real date by any number of whole days gives a real date |
| DatePickerHelper.AddDaysLast | src/components/Form/DatePicker/helper.ts:61-64 | a shift by n days is the shift by n-1 days followed by one more day, and likewise backwards |
| DatePickerHelper.AddDaysInverse | src/components/Form/DatePicker/helper.ts:61-64 | shifting by n days and then by -n days gives the date back |
| DatePickerHelper.TwoDigitsLength | src/components/Form/DatePicker/helper.ts:74-80 | the numbers 1 to 9 print as one character and 10 to 31 as two, which is why the code pads by length |
| DatePickerHelper.TwoDigitsAllDigits | src/components/Form/DatePicker/helper.ts:74-80 | a padded month or day is made of digits only |
| DatePickerHelper.TwoDigitsRead | src/components/Form/DatePicker/helper.ts:74-80 | the padded text of 1 to 31 has two digits and reads back as the number |
| DatePickerHelper.DateStringParts | src/components/Form/DatePicker/helper.ts:98-105 | for a month from 1 to 12 and a day from 1 to 31 the string is the year, the separator, the two-digit month, the separator and the two-digit day, and both parts read back as the numbers |
| DatePickerHelper.GetDateString | src/components/Form/DatePicker/helper.ts:98-105 | getDateString; no contract of its own: DatePickerHelper.DateStringParts states its parts and DatePickerHelper.FormatMatchesDateString ties it to getDateFormat |
| DatePickerHelper.GetDateFormat | src/components/Form/DatePicker/helper.ts:58-89 | getDateFormat on a real date shifted by the day offset; no contract of its own: DatePickerHelper.FormatMatchesDateString states what Y-m-d gives |
| DatePickerHelper.FieldsPadded | src/components/Form/DatePicker/helper.ts:66-80 | Y and y are the full year, m and d the two-digit month from 1 and day, n and j the same numbers unpadded |
| DatePickerHelper.Unshifted | src/components/Form/DatePicker/helper.ts:59-64 | a missing offset and an offset of 0 both leave the date unmoved |
| DatePickerHelper.PlainUnchanged | src/components/Form/DatePicker/helper.ts:82-88 | a format with none of the letters Y, m, d, y, n and j comes back unchanged |
| DatePickerHelper.ReplaceYear | src/components/Form/DatePicker/helper.ts:83 | in Y-m-d the Y is replaced by the year |
| DatePickerHelper.ReplaceMonth | src/components/Form/DatePicker/helper.ts:84 | the first m after the year is replaced by the month when the year has no m |
| DatePickerHelper.ReplaceDay | src/components/Form/DatePicker/helper.ts:85 | the first d is replaced by the day when the year and the month have none |
| DatePickerHelper.KeepDigitsOrDash | src/components/Form/DatePicker/helper.ts:86-88 | once only digits and dashes remain, replacing any other letter changes nothing |
| DatePickerHelper.FormatYmd | src/components/Form/DatePicker/helper.ts:82-88 | Y-m-d with digit-only fields gives year, dash, month, dash and day |
| DatePickerHelper.FormatYmdDate | src/components/Form/DatePicker/helper.ts:58-89 | Y-m-d without a shift gives the year and then the two-digit month and day of the date |
| DatePickerHelper.FormatMatchesDateString | src/components/Form/DatePicker/helper.ts:58-105 | for Y-m-d and a year from 0 on, getDateFormat and getDateString with a dash and the month from 1 agree on every date |
| DatePickerHelper.LastDayBefore | src/components/Form/DatePicker/helper.ts:115 | day 0 of a month is the last day of the month before, between 28 and 31 |
| DatePickerHelper.GetBeforeDay | src/components/Form/DatePicker/helper.ts:114-117 | from year 100 on, for a month from 1 to 12 the result is the number of days of the month before minus week plus one, and for month 0 it is 31 minus week plus one (December of the year before); in general the result plus week minus one is the last day before the month |
| DatePickerHelper.LastDayOfMonth | src/components/Form/DatePicker/helper.ts:115 | for a calendar month from years 100 on, day 0 of the next month index is the length of that month, and February has 29 days exactly in leap years |
| DatePickerHelper.LastDayBeforeJanuary | src/components/Form/DatePicker/helper.ts:115 | month 0 looks back to December of the year before, which has 31 days |
| DatePickerHelper.TwoDigitYear | src/components/Form/DatePicker/helper.ts:115 | years 0 to 99 are read as 1900 to 1999, so year 0 gets a February of 28 days and year 4 one of 29 |
| DatePickerHelper.BeforeDayRange | src/components/Form/DatePicker/helper.ts:114-117 | for a week offset from 0 to 6 the result lies between 22 and 32 |

## Left out

- HTTP plumbing: the axios client, its interceptors and the API modules are pass-throughs to the network. The response a store method consumes is a parameter.
- SmartEditor.EditorStore.OptionCall: only the handling of a response is modelled. The request itself and the race between overlapping refreshes of one category depend on asynchronous interleaving. A thrown request is an input case.
- The user interface: toasts, message boxes, DOM helpers, the date picker's layer position, input masks, resize timers and the components' Vue lifecycle.
- The session store and login: JWT decoding, clock-based expiry and `localStorage`, none of which the modelled operations read.
- ClientStore.ClientStoreState: the `localStorage` and `sessionStorage` writes are the ghost fields `savedClientId` and `savedAuthLevel`, since storage is outside the program.
- src/js/helper/copy.ts is not part of this model. It wraps `uuid` and the copy endpoints and holds no state of its own.
- Floating point: `cutDot`, date differences, timestamps, file sizes and `Intl` number formatting are left out. FtpHelper.ActionItem.ProgressPercent takes the progress as a Dafny `real`.
- JavaScript `Date`: parsing, the clock and time zones. Dates are given as their calendar fields in local time. DatePickerHelper.AddDays counts the shift of `86400 * days * 1000` milliseconds as whole calendar days, so a day that a daylight-saving change makes shorter or longer is not modelled. The date picker store's `init` reads the clock and is left out; its constructor takes today's date as parameters.
- Regular expressions: the pattern catalogue of `util.patterns` and `patternCheck` is an abstract `test` function. Only which flag selects a pattern, what a name every object inherits gives, and what an unknown flag does, is modelled. FtpHelper.IsImage and FtpHelper.IsCode are the exception: their character classes are written out, because what they accept is the point.
- Case mapping is ASCII only, both for `toLocaleLowerCase` in the file-type tests and `toUpperCase` in the capitalisation helpers. Other letters are left as they are.
- Util.FormatDefault and the other date-format lemmas assume a year from 0 on and fields in their calendar ranges. Negative years would print a minus sign, which the lemmas do not cover.
- Util.AxiosErrorCatch: an inherited member used as the toast message is known by its name; how the toast renders a function is user interface.
- DatePickerHelper.GetDateString has no contract of its own. DatePickerHelper.DateStringParts states what it gives for a calendar month and day, and DatePickerHelper.FormatMatchesDateString ties it to getDateFormat.
- DatePickerHelper.LastDayOfMonth: years 0 to 99 are read by `new Date` as 1900 to 1999. DatePickerHelper.LastDayBefore models that reading, and DatePickerHelper.TwoDigitYear exhibits it. The lemma about month lengths is stated from year 100 on.
- SmartEditor.EditorStore.SortSection requires a non-empty list and an index before its end. An index before the start is clamped to the first section, as splice does. For an index past the end, splice would remove nothing and then insert `undefined`, a state the model's section type does not have.
- Menus: the menu items are modelled as values in a tree. Fetching an item instead of the tree that holds it, and the aliasing between a reactive item and the copies made from it, are not modelled.
- Menus.MenusStore.ActiveMenu and Menus.MenusStore.SetActive require the selected indices to name existing items. The code would throw a TypeError when writing to a missing item.
- Menus.MenusStore.SetActiveMenu requires that nothing below `depth` is selected yet, as on the first call when the store is created, that the menu passed is the one at that depth, and that the tree below it is no deeper than the three levels the `active` triple can record (`Fits`). On a deeper tree the code would append a fourth index to the array, which activeMenu never reads.
- FtpContents.CheckAll requires the items to be distinct objects, as `setList` and `setDirectory` make them.
- RouterSmartEditor.ResolveComponent returns the meta fields the guard writes to `to.meta`, in place of writing them. The `next()` continuation is the choice between `Redirect` and `Resolved`.
- Static data: the menu tables, the router tables other than the smart-components guard, and most of the constant tables. The tables whose contents a lemma depends on, GENDER, CLIENT_CATEGORY, AUTH and the API message table, are written out.
- Type declarations carry no behaviour and are left out.

## Findings

| source | as written | input that shows it | evidently intended | confidence | as-written member | corrected member |
|---|---|---|---|---|---|---|
| src/js/util.ts:307-319 | `getExcelColumn` takes the first letter from `arr[floor(index / 26) - 1]`, which runs off the 26-letter array from index 702 on | index 702 gives "undefinedA", where a spreadsheet has "AAA" | spreadsheet column names for every index, as bijective base 26 | medium, not executed | Util.ExcelColumnAsWrittenPastZZ | Util.ExcelColumnRoundTrip |
| src/js/prototype.ts:18-36 | `patternCase[flag]` also finds the properties every object inherits, so a flag such as "toString" passes the guard and `.test` is missing | `"abc".patternCheck("toString")` throws a TypeError instead of returning false | every flag outside the table gives false | high, not executed | Prototype.PatternCheckAsWrittenThrows | Prototype.PatternCheck |
