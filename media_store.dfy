/** The media store: the media fetched so far, each with its count of media
    codes, and the total number of media codes. */
module MediaStore {

  /** GetMediasItem. Only the code count is ever written. */
  class MediaItem {
    const mediaUid: string
    const media: string
    const regDatetime: int
    const modDatetime: int
    var mediaCodeCount: int

    constructor (mediaUid: string, media: string, regDatetime: int, modDatetime: int, mediaCodeCount: int)
      ensures this.mediaUid == mediaUid && this.media == media
      ensures this.regDatetime == regDatetime && this.modDatetime == modDatetime
      ensures this.mediaCodeCount == mediaCodeCount
    {
      this.mediaUid := mediaUid;
      this.media := media;
      this.regDatetime := regDatetime;
      this.modDatetime := modDatetime;
      this.mediaCodeCount := mediaCodeCount;
    }
  }

  /** The index of the first media satisfying the name or uid test, or -1. */
  function FirstWithName(list: seq<MediaItem>, name: string): (r: int)
    ensures -1 <= r < |list|
    ensures r >= 0 ==> list[r].media == name && forall k :: 0 <= k < r ==> list[k].media != name
    ensures r == -1 <==> forall k :: 0 <= k < |list| ==> list[k].media != name
  {
    if |list| == 0 then -1
    else if list[0].media == name then 0
    else var r := FirstWithName(list[1..], name); if r == -1 then -1 else r + 1
  }

  function FirstWithUid(list: seq<MediaItem>, uid: string): (r: int)
    ensures -1 <= r < |list|
    ensures r >= 0 ==> list[r].mediaUid == uid && forall k :: 0 <= k < r ==> list[k].mediaUid != uid
    ensures r == -1 <==> forall k :: 0 <= k < |list| ==> list[k].mediaUid != uid
  {
    if |list| == 0 then -1
    else if list[0].mediaUid == uid then 0
    else var r := FirstWithUid(list[1..], uid); if r == -1 then -1 else r + 1
  }

  /** getMediaUid(list, name): the uid of the first media of that name, or ''. */
  function GetMediaUid(list: seq<MediaItem>, mediaName: string): (r: string)
    ensures (exists k :: 0 <= k < |list| && list[k].media == mediaName) ==>
      var k := FirstWithName(list, mediaName); r == list[k].mediaUid
    ensures (forall k :: 0 <= k < |list| ==> list[k].media != mediaName) ==> r == ""
  {
    var k := FirstWithName(list, mediaName);
    if k == -1 then "" else list[k].mediaUid
  }

  /** getMediaName(list, uid): the name of the first media with that uid, or ''. */
  function GetMediaName(list: seq<MediaItem>, mediaUid: string): (r: string)
    ensures (exists k :: 0 <= k < |list| && list[k].mediaUid == mediaUid) ==>
      var k := FirstWithUid(list, mediaUid); r == list[k].media
    ensures (forall k :: 0 <= k < |list| ==> list[k].mediaUid != mediaUid) ==> r == ""
  {
    var k := FirstWithUid(list, mediaUid);
    if k == -1 then "" else list[k].media
  }

  /** The name/uid lookups agree: the uid found for a name leads back to a
      media of that name when uids are unique. */
  lemma {:induction false} NameUidRoundTrip(list: seq<MediaItem>, name: string)
    requires forall i, j :: 0 <= i < j < |list| ==> list[i].mediaUid != list[j].mediaUid
    requires exists k :: 0 <= k < |list| && list[k].media == name
    ensures GetMediaName(list, GetMediaUid(list, name)) == name
  {
    var k := FirstWithName(list, name);
    var u := list[k].mediaUid;
    assert GetMediaUid(list, name) == u;
    var k2 := FirstWithUid(list, u);
    assert k2 == k;
  }

  /** The number of places among the first `k` of `list` that hold `o`. */
  function Occurrences(list: seq<MediaItem>, o: MediaItem, k: nat): (n: nat)
    requires k <= |list|
    ensures n <= k
    ensures n == 0 <==> forall j :: 0 <= j < k ==> list[j] != o
  {
    if k == 0 then 0 else Occurrences(list, o, k - 1) + (if list[k - 1] == o then 1 else 0)
  }

  /** A media that the list holds once, as fetched media are, has its count
      moved once. */
  lemma {:induction false} OccurrencesOfDistinct(list: seq<MediaItem>, j: nat, k: nat)
    requires forall a, b :: 0 <= a < b < |list| ==> list[a] != list[b]
    requires j < k <= |list|
    ensures Occurrences(list, list[j], k) == 1
  {
    if k - 1 == j {
      assert Occurrences(list, list[j], k - 1) == 0;
    } else {
      OccurrencesOfDistinct(list, j, k - 1);
    }
  }

  class MediaStoreState {
    var mediaList: seq<MediaItem>
    var mediaTotalCount: int

    /** The media objects held by the list. */
    ghost function Items(): set<MediaItem>
      reads this
    {
      set k | 0 <= k < |mediaList| :: mediaList[k]
    }

    constructor ()
      ensures mediaList == [] && mediaTotalCount == 0
    {
      mediaList := [];
      mediaTotalCount := 0;
    }

    /** updateMediaList(data): the new media go after the existing ones. */
    method UpdateMediaList(data: seq<MediaItem>)
      modifies this`mediaList
      ensures mediaList == old(mediaList) + data
    {
      mediaList := mediaList + data;
    }

    /** resetMediaList: the list empties, the total stays. */
    method ResetMediaList()
      modifies this`mediaList
      ensures mediaList == []
    {
      mediaList := [];
    }

    /** plusTotal(u): the total goes up by one, and so does the count of
        each media with uid `u`, once per place the object holds in the list. */
    method PlusTotal(mediaUid: string)
      modifies this`mediaTotalCount, Items()`mediaCodeCount
      ensures mediaTotalCount == old(mediaTotalCount) + 1 && mediaList == old(mediaList)
      ensures forall j :: 0 <= j < |mediaList| ==>
        mediaList[j].mediaCodeCount == old(mediaList[j].mediaCodeCount)
          + (if mediaList[j].mediaUid == mediaUid then Occurrences(mediaList, mediaList[j], |mediaList|) else 0)
    {
      mediaTotalCount := mediaTotalCount + 1;
      var k := 0;
      while k < |mediaList|
        invariant 0 <= k <= |mediaList|
        invariant forall j :: 0 <= j < |mediaList| ==>
          mediaList[j].mediaCodeCount == old(mediaList[j].mediaCodeCount)
            + (if mediaList[j].mediaUid == mediaUid then Occurrences(mediaList, mediaList[j], k) else 0)
        modifies Items()`mediaCodeCount
      {
        var media := mediaList[k];
        if media.mediaUid == mediaUid {
          media.mediaCodeCount := media.mediaCodeCount + 1;
        }
        k := k + 1;
      }
    }

    /** minusTotal(u): the same moves downwards. */
    method MinusTotal(mediaUid: string)
      modifies this`mediaTotalCount, Items()`mediaCodeCount
      ensures mediaTotalCount == old(mediaTotalCount) - 1 && mediaList == old(mediaList)
      ensures forall j :: 0 <= j < |mediaList| ==>
        mediaList[j].mediaCodeCount == old(mediaList[j].mediaCodeCount)
          - (if mediaList[j].mediaUid == mediaUid then Occurrences(mediaList, mediaList[j], |mediaList|) else 0)
    {
      mediaTotalCount := mediaTotalCount - 1;
      var k := 0;
      while k < |mediaList|
        invariant 0 <= k <= |mediaList|
        invariant forall j :: 0 <= j < |mediaList| ==>
          mediaList[j].mediaCodeCount == old(mediaList[j].mediaCodeCount)
            - (if mediaList[j].mediaUid == mediaUid then Occurrences(mediaList, mediaList[j], k) else 0)
        modifies Items()`mediaCodeCount
      {
        var media := mediaList[k];
        if media.mediaUid == mediaUid {
          media.mediaCodeCount := media.mediaCodeCount - 1;
        }
        k := k + 1;
      }
    }

    /** minusTotal undoes plusTotal. */
    method PlusThenMinus(mediaUid: string)
      modifies this`mediaTotalCount, Items()`mediaCodeCount
      ensures mediaTotalCount == old(mediaTotalCount) && mediaList == old(mediaList)
      ensures forall j :: 0 <= j < |mediaList| ==> mediaList[j].mediaCodeCount == old(mediaList[j].mediaCodeCount)
    {
      PlusTotal(mediaUid);
      MinusTotal(mediaUid);
    }
  }
}
