/** The client store: the advertisers the signed-in member may manage and the
    one currently selected. Browser storage writes are recorded in ghost
    fields. */
module ClientStore {
  import opened JsCore

  /** The keys of the AUTH code table. */
  datatype AuthLevel = Super | Master | Member | Media

  /** AUTH[level].TXT. */
  function AuthText(a: AuthLevel): string
  {
    match a
    case Super => "슈퍼관리자"
    case Master => "마스터"
    case Member => "멤버"
    case Media => "매체사"
  }

  /** Distinct levels are shown under distinct names. */
  lemma AuthTextDistinct(a: AuthLevel, b: AuthLevel)
    requires a != b
    ensures AuthText(a) != AuthText(b)
  {
  }

  datatype Domain = Domain(isMain: int, domain: string)

  /** The fields of MemberClientItem that the store reads. */
  datatype ClientItem = ClientItem(clientName: string, clientId: string, authLevel: AuthLevel, domains: seq<Domain>)

  /** The index of the last item with that client id, if any. */
  function LastMatch(list: seq<ClientItem>, id: string): (r: Option<nat>)
    ensures r.Some? ==>
      r.value < |list| && list[r.value].clientId == id
      && forall k :: r.value < k < |list| ==> list[k].clientId != id
    ensures r.None? <==> forall k :: 0 <= k < |list| ==> list[k].clientId != id
  {
    if |list| == 0 then None
    else if list[|list| - 1].clientId == id then Some(|list| - 1)
    else LastMatch(list[..|list| - 1], id)
  }

  class ClientStoreState {
    var clientList: seq<ClientItem>
    var clientName: string
    var clientId: string
    var domains: seq<Domain>
    var authLevel: AuthLevel
    /** localStorage[client key] */
    ghost var savedClientId: Option<string>
    /** sessionStorage[auth level key] */
    ghost var savedAuthLevel: Option<AuthLevel>

    constructor ()
      ensures clientList == [] && clientName == "" && clientId == "" && domains == [] && authLevel == Member
      ensures savedClientId == None && savedAuthLevel == None
    {
      clientList := [];
      clientName := "";
      clientId := "";
      domains := [];
      authLevel := Member;
      savedClientId := None;
      savedAuthLevel := None;
    }

    method SetClientList(items: seq<ClientItem>)
      modifies this`clientList
      ensures clientList == items
    {
      clientList := items;
    }

    /** setClientAccount(data, save): the four account fields are copied;
        with `save` the id and the level are stored as well. */
    method SetClientAccount(name: string, id: string, ds: seq<Domain>, level: AuthLevel, save: bool)
      modifies this`clientName, this`clientId, this`domains, this`authLevel, this`savedClientId, this`savedAuthLevel
      ensures clientName == name && clientId == id && domains == ds && authLevel == level
      ensures savedClientId == (if save then Some(id) else old(savedClientId))
      ensures savedAuthLevel == (if save then Some(level) else old(savedAuthLevel))
    {
      clientName := name;
      clientId := id;
      domains := ds;
      authLevel := level;
      if save {
        savedClientId := Some(id);
        savedAuthLevel := Some(level);
      }
    }

    /** setClientAccountByClientId(id): every item with that id is selected in
        turn (so the last one wins) and saved; without a match nothing changes. */
    method SetClientAccountByClientId(id: string)
      modifies this`clientName, this`clientId, this`domains, this`authLevel, this`savedClientId, this`savedAuthLevel
      ensures LastMatch(clientList, id).None? ==>
        clientName == old(clientName) && clientId == old(clientId) && domains == old(domains)
        && authLevel == old(authLevel)
        && savedClientId == old(savedClientId) && savedAuthLevel == old(savedAuthLevel)
      ensures LastMatch(clientList, id).Some? ==>
        var item := clientList[LastMatch(clientList, id).value];
        clientName == item.clientName && clientId == id && domains == item.domains
        && authLevel == item.authLevel
        && savedClientId == Some(id) && savedAuthLevel == Some(item.authLevel)
    {
      if |clientList| > 0 {
        var k := 0;
        while k < |clientList|
          invariant 0 <= k <= |clientList|
          invariant LastMatch(clientList[..k], id).None? ==>
            clientName == old(clientName) && clientId == old(clientId) && domains == old(domains)
            && authLevel == old(authLevel)
            && savedClientId == old(savedClientId) && savedAuthLevel == old(savedAuthLevel)
          invariant LastMatch(clientList[..k], id).Some? ==>
            var item := clientList[LastMatch(clientList[..k], id).value];
            clientName == item.clientName && clientId == id && domains == item.domains
            && authLevel == item.authLevel
            && savedClientId == Some(id) && savedAuthLevel == Some(item.authLevel)
        {
          var item := clientList[k];
          assert clientList[..k + 1][..k] == clientList[..k];
          if item.clientId == id {
            SetClientAccount(item.clientName, item.clientId, item.domains, item.authLevel, true);
            savedAuthLevel := Some(item.authLevel);
          }
          k := k + 1;
        }
        assert clientList[..k] == clientList;
      }
    }

    /** setClientAccountDomain: only the domains change. */
    method SetClientAccountDomain(ds: seq<Domain>)
      modifies this`domains
      ensures domains == ds
    {
      domains := ds;
    }

    /** getAuthLevelName. */
    function AuthLevelName(): (r: string)
      reads this
      ensures r == AuthText(authLevel)
      ensures authLevel == Member ==> r == "멤버"
    {
      AuthText(authLevel)
    }

    /** clear: the list and the account are reset, but the domains stay. */
    method Clear()
      modifies this`clientList, this`clientName, this`clientId, this`authLevel
      ensures clientList == [] && clientName == "" && clientId == "" && authLevel == Member
    {
      clientList := [];
      clientName := "";
      clientId := "";
      authLevel := Member;
    }
  }
}
