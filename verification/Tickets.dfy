/** Connection tickets and cluster invites (tickets.py): what parsing gives back of what was
    created, for every input. JSON and URL parsing are parameters. */
module Tickets {
  import opened Basics
  import opened Text
  import opened Base64

  const TICKET := "usr://ticket/"
  const BARE_TICKET := "usr_ticket_"
  const CLUSTER := "usr://cluster/"
  const SCHEME := "usr://"

  datatype Json =
    | Null
    | Bool(flag: bool)
    | Number(number: real)
    | Text(text: string)
    | List(items: seq<Json>)
    | Object(fields: map<string, Json>)

  datatype Error =
    | Empty | IsClusterInvite | NotAscii | NotBase64 | NotJson | NotObject | NoBaseUrl
    | NotHttps | NotInvite | IsVersionTwo | NotVersionOne | NoCluster | BadMember | Incomplete | BadAddress

  datatype Ticket = Ticket(name: string, baseUrl: string, token: Option<string>, tlsVerify: bool,
                           clusterId: Option<string>)

  // What the tickets need of other libraries.
  datatype Library = Library(
    dumps: Json -> seq<Byte>,               // json.dumps, encoded as UTF-8
    loads: seq<Byte> -> Option<Json>,       // json.loads of decoded UTF-8
    shown: Json -> string,                  // str() of a value that is not text
    netloc: string -> Option<string>,       // the address of an https:// URL, if it has one
    addressOk: string -> bool,              // a valid port, and a host name
    uri: string -> Result<Ticket, Error>)   // `_parse_usr_uri`

  predicate Truthy(json: Json) {
    match json
    case Null => false
    case Bool(flag) => flag
    case Number(number) => number != 0.0
    case Text(text) => text != ""
    case List(items) => items != []
    case Object(fields) => fields != map[]
  }

  // `get`
  function Get(fields: map<string, Json>, key: string): Json {
    if key in fields then fields[key] else Null
  }

  function Str(library: Library, json: Json): string {
    if json.Text? then json.text else library.shown(json)
  }

  function Trimmed(text: string): string {
    Strip(text, Space)
  }

  predicate Slash(c: char) {
    c == '/'
  }

  // `.strip().rstrip("/")`
  function Url(text: string): string {
    StripRight(Trimmed(text), Slash)
  }

  // ---- Tickets --------------------------------------------------------------------------------

  // An optional text that is left out when blank.
  function Given(text: Option<string>): Option<string> {
    if text.Some? && Trimmed(text.value) != "" then Some(Trimmed(text.value)) else None
  }

  function With(fields: map<string, Json>, key: string, text: Option<string>): map<string, Json> {
    if text.Some? then fields[key := Text(text.value)] else fields
  }

  function TicketJson(ticket: Ticket): Json {
    var fields := map["v" := Number(1.0), "name" := Text(Trimmed(ticket.name)),
                      "base_url" := Text(Url(ticket.baseUrl)), "tls_verify" := Bool(ticket.tlsVerify)];
    Object(With(With(fields, "token", Given(ticket.token)), "cluster_id", Given(ticket.clusterId)))
  }

  // `create_ticket`
  function CreateTicket(library: Library, ticket: Ticket): string {
    TICKET + Payload(library.dumps(TicketJson(ticket)))
  }

  predicate Ascii(text: string) {
    forall i :: 0 <= i < |text| ==> text[i] as int < 128
  }

  function ReadOptional(library: Library, json: Json): Option<string> {
    if Truthy(json) then Some(Trimmed(Str(library, json))) else None
  }

  // `_decode_json_payload`
  function DecodePayload(library: Library, payload: string): Result<Ticket, Error> {
    var padded := Padded(Url(payload));
    if !Ascii(padded) then Err(NotAscii)
    else
      var bytes := if UrlDecode(padded).Some? then UrlDecode(padded) else Decode(padded);
      if bytes.None? then Err(NotBase64)
      else
        match library.loads(bytes.value)
        case Some(Object(fields)) => ReadFields(library, fields)
        case Some(_) => Err(NotObject)
        case None => Err(NotJson)
  }

  function ReadFields(library: Library, fields: map<string, Json>): Result<Ticket, Error> {
    var baseUrl := if Truthy(Get(fields, "base_url")) then Get(fields, "base_url") else Get(fields, "url");
    if !Truthy(baseUrl) || !baseUrl.Text? then Err(NoBaseUrl)
    else
      var name := if Truthy(Get(fields, "name")) then Get(fields, "name") else Text("Backend");
      var tlsVerify := if "tls_verify" in fields then Truthy(fields["tls_verify"]) else true;
      Ok(Ticket(Trimmed(Str(library, name)), Url(baseUrl.text), ReadOptional(library, Get(fields, "token")),
                tlsVerify, ReadOptional(library, Get(fields, "cluster_id"))))
  }

  // `parse_ticket`
  function ParseTicket(library: Library, text: string): Result<Ticket, Error> {
    var cleaned := Trimmed(text);
    if cleaned == "" then Err(Empty)
    else if CLUSTER <= cleaned then Err(IsClusterInvite)
    else if TICKET <= cleaned then DecodePayload(library, cleaned[|TICKET|..])
    else if BARE_TICKET <= cleaned then DecodePayload(library, cleaned[|BARE_TICKET|..])
    else if SCHEME <= cleaned then library.uri(cleaned)
    else DecodePayload(library, cleaned)
  }

  // Parsing undoes dumping, for this value.
  predicate Undone(library: Library, json: Json) {
    library.loads(library.dumps(json)) == Some(json)
  }

  lemma {:induction false} SafeUnchanged(text: string)
    requires UrlSafe(text)
    ensures Trimmed(text) == text == Url(text) && Ascii(Padded(text)) && '@' !in text && '#' !in text
  {
    StripKeeps(text, Space);
    StripRightEnd(text, Slash);
  }

  lemma {:induction false} PayloadRead(library: Library, json: Json)
    requires Undone(library, json) && json.Object?
    ensures DecodePayload(library, Payload(library.dumps(json))) == ReadFields(library, json.fields)
  {
    PayloadDecodes(library.dumps(json));
    SafeUnchanged(Payload(library.dumps(json)));
  }

  // A prefix that ends and starts with letters stripping keeps.
  lemma {:induction false} PrefixKept(prefix: string, body: string)
    requires prefix != "" && !Space(prefix[0]) && !Space(Last(prefix))
    ensures Trimmed(prefix + body) == prefix + StripRight(body, Space)
  {
    assert StripLeft(prefix + body, Space) == prefix + body;
    StripRightBehind(prefix, body, Space);
  }

  lemma {:induction false} PayloadKept(prefix: string, payload: string)
    requires prefix != "" && !Space(prefix[0]) && !Space(Last(prefix)) && UrlSafe(payload)
    ensures Trimmed(prefix + payload) == prefix + payload && (prefix + payload)[|prefix|..] == payload
  {
    PrefixKept(prefix, payload);
    StripRightEnd(payload, Space);
  }

  // A ticket's fields as another WebUI gets them.
  function ReadBack(ticket: Ticket): Ticket {
    Ticket(if Trimmed(ticket.name) == "" then "Backend" else Trimmed(ticket.name), Url(Url(ticket.baseUrl)),
           Given(ticket.token), ticket.tlsVerify, Given(ticket.clusterId))
  }

  function OptionalJson(text: Option<string>): Json {
    if text.Some? then Text(text.value) else Null
  }

  lemma {:induction false} TicketFields(ticket: Ticket)
    ensures var fields := TicketJson(ticket).fields;
            && Get(fields, "base_url") == Text(Url(ticket.baseUrl)) && Get(fields, "url") == Null
            && Get(fields, "name") == Text(Trimmed(ticket.name))
            && "tls_verify" in fields && fields["tls_verify"] == Bool(ticket.tlsVerify)
            && Get(fields, "token") == OptionalJson(Given(ticket.token))
            && Get(fields, "cluster_id") == OptionalJson(Given(ticket.clusterId))
  {
  }

  lemma {:induction false} OptionalRead(library: Library, text: Option<string>)
    ensures ReadOptional(library, OptionalJson(Given(text))) == Given(text)
  {
    if text.Some? { StripTwice(text.value, Space); }
  }

  lemma {:induction false} FieldsRead(library: Library, ticket: Ticket)
    ensures ReadFields(library, TicketJson(ticket).fields) ==
            if Url(ticket.baseUrl) == "" then Err(NoBaseUrl) else Ok(ReadBack(ticket))
  {
    hide TicketJson, Given, Get, Strip, ReadOptional;
    TicketFields(ticket);
    StripTwice(ticket.name, Space);
    StripKeeps("Backend", Space);
    OptionalRead(library, ticket.token);
    OptionalRead(library, ticket.clusterId);
  }

  /** Every ticket created parses to its fields, trimmed; without an address it is refused. */
  lemma {:induction false} TicketRoundTrip(library: Library, ticket: Ticket)
    requires Undone(library, TicketJson(ticket))
    ensures ParseTicket(library, CreateTicket(library, ticket)) ==
            if Url(ticket.baseUrl) == "" then Err(NoBaseUrl) else Ok(ReadBack(ticket))
  {
    var payload := Payload(library.dumps(TicketJson(ticket)));
    PayloadDecodes(library.dumps(TicketJson(ticket)));
    PayloadKept(TICKET, payload);
    assert (TICKET + payload)[6] == 't' && CLUSTER[6] == 'c';
    PayloadRead(library, TicketJson(ticket));
    FieldsRead(library, ticket);
  }

  lemma {:induction false} BareTicket(library: Library, payload: string)
    requires UrlSafe(payload)
    ensures ParseTicket(library, BARE_TICKET + payload) == DecodePayload(library, payload)
  {
    PayloadKept(BARE_TICKET, payload);
    assert (BARE_TICKET + payload)[3] == '_' && CLUSTER[3] == TICKET[3] == ':';
  }

  lemma {:induction false} PayloadAlone(library: Library, payload: string)
    requires UrlSafe(payload) && payload != "" && payload[0] != 'u'
    ensures ParseTicket(library, payload) == DecodePayload(library, payload)
  {
    SafeUnchanged(payload);
    assert CLUSTER[0] == TICKET[0] == BARE_TICKET[0] == SCHEME[0] == 'u';
  }

  /** The older prefix, and the payload alone, are read as the same ticket. */
  lemma {:induction false} OtherForms(library: Library, ticket: Ticket)
    requires Undone(library, TicketJson(ticket))
    requires library.dumps(TicketJson(ticket)) != [] && library.dumps(TicketJson(ticket))[0] == 0x7B
    ensures var payload := Payload(library.dumps(TicketJson(ticket)));
            && ParseTicket(library, BARE_TICKET + payload) == ParseTicket(library, CreateTicket(library, ticket))
            && ParseTicket(library, payload) == ParseTicket(library, CreateTicket(library, ticket))
  {
    var bytes := library.dumps(TicketJson(ticket));
    TicketRoundTrip(library, ticket);
    PayloadDecodes(bytes);
    BracePayload(bytes);
    PayloadRead(library, TicketJson(ticket));
    FieldsRead(library, ticket);
    BareTicket(library, Payload(bytes));
    PayloadAlone(library, Payload(bytes));
  }

  // ---- When nothing changes -----------------------------------------------------------------

  lemma {:induction false} UrlShortens(text: string)
    ensures |Url(text)| <= |text| && (|Url(text)| == |text| ==> Url(text) == text)
  {
    StripEnds(text, Space);
    StripRightEnd(Trimmed(text), Slash);
  }

  // Only slashes follow this character.
  predicate OnlySlashesAfter(text: string, i: nat) {
    i < |text| && forall j :: i < j < |text| ==> Slash(text[j])
  }

  /** The address is trimmed once and for all unless, once trimmed, it has a blank before its
      last slashes. */
  lemma {:induction false} UrlSettles(text: string)
    ensures Url(Url(text)) == Url(text) <==>
            !exists i :: 0 <= i < |Trimmed(text)| && Space(Trimmed(text)[i]) && OnlySlashesAfter(Trimmed(text), i)
  {
    BlankIsNoSlash();
    hide Trimmed, StripRight, OnlySlashesAfter, Space, Slash;
    UrlEnd(text);
    BeforeSlashes(Trimmed(text));
    var url := Url(text);
    if url != "" && Space(Last(url)) {
      assert Space(Trimmed(text)[|url| - 1]) && OnlySlashesAfter(Trimmed(text), |url| - 1);
    }
  }

  lemma {:induction false} BlankIsNoSlash()
    ensures forall c: char :: Space(c) ==> !Slash(c)
  {
  }

  // The last character that stays is the one that only slashes follow.
  lemma {:induction false} BeforeSlashes(text: string)
    ensures var kept := StripRight(text, Slash);
            && kept <= text && (kept != "" ==> OnlySlashesAfter(text, |kept| - 1))
            && forall i :: 0 <= i < |text| && !Slash(text[i]) && OnlySlashesAfter(text, i) ==> i == |kept| - 1
    decreases |text|
  {
    if text != "" && Slash(Last(text)) {
      BeforeSlashes(Init(text));
      OneMoreSlash(text);
      hide OnlySlashesAfter;
    } else {
      forall i | 0 <= i < |text| && OnlySlashesAfter(text, i) ensures i == |text| - 1 { LastSticks(text, i); }
    }
  }

  lemma {:induction false} OneMoreSlash(text: string)
    requires text != "" && Slash(Last(text))
    ensures forall i :: 0 <= i < |text| - 1 ==> (OnlySlashesAfter(text, i) <==> OnlySlashesAfter(Init(text), i))
  {
  }

  lemma {:induction false} LastSticks(text: string, i: nat)
    requires text != "" && !Slash(Last(text)) && OnlySlashesAfter(text, i)
    ensures i == |text| - 1
  {
  }

  /** So it is not settled after one trimming for any address with a blank and a slash added. */
  lemma {:induction false} NotSettled(url: string)
    requires CleanUrl(url)
    ensures Url(url + " /") == url + " " && Url(Url(url + " /")) == url
  {
    StripKeeps(url + " /", Space);
    StripRightBehind(url + " ", "/", Slash);
    assert StripRight("/", Slash) == "" && url + " " + "/" == url + " /";
    assert Url(url + " /") == url + " ";
    StripRightBehind(url, " ", Space);
    assert StripRight(" ", Space) == "" && url + "" == url;
    assert Trimmed(url + " ") == url by { assert StripLeft(url + " ", Space) == url + " "; }
    StripRightEnd(url, Slash);
  }

  lemma {:induction false} UrlEnd(text: string)
    ensures Url(Url(text)) == Url(text) <==> Url(text) == "" || !Space(Last(Url(text)))
  {
    var url := Url(text);
    StripEnds(text, Space);
    StripRightEnd(Trimmed(text), Slash);
    if url != "" {
      if Space(Last(url)) {
        StripEnds(url, Space);
        assert Trimmed(url) != url;
        UrlShortens(Trimmed(url));
        StripRightEnd(Trimmed(url), Slash);
        assert |Url(url)| < |url|;
      } else {
        assert url[0] == Trimmed(text)[0];
        StripKeeps(url, Space);
        StripRightEnd(url, Slash);
      }
    }
  }

  predicate Clean(text: string) {
    text != "" && !Space(text[0]) && !Space(Last(text))
  }

  predicate CleanUrl(url: string) {
    Clean(url) && !Slash(Last(url))
  }

  predicate CleanOptional(text: Option<string>) {
    text.Some? ==> Clean(text.value)
  }

  lemma {:induction false} TrimmedClean(text: string)
    ensures text != "" ==> (Trimmed(text) == text <==> Clean(text))
  {
    StripEnds(text, Space);
    if Clean(text) { StripKeeps(text, Space); }
  }

  lemma {:induction false} UrlClean(text: string)
    ensures text != "" ==> (Url(text) == text <==> CleanUrl(text))
    ensures Url(Url(text)) == text ==> Url(text) == text
  {
    TrimmedClean(text);
    StripEnds(text, Space);
    StripRightEnd(Trimmed(text), Slash);
    UrlShortens(text);
    UrlShortens(Url(text));
  }

  lemma {:induction false} GivenClean(text: Option<string>)
    ensures Given(text) == text <==> CleanOptional(text)
  {
    if text.Some? { TrimmedClean(text.value); }
  }

  /** Parsing undoes creating exactly when no field has blanks around it, nor the address a
      slash at its end, and none is empty. */
  lemma {:induction false} TicketUndone(library: Library, ticket: Ticket)
    requires Undone(library, TicketJson(ticket))
    ensures ParseTicket(library, CreateTicket(library, ticket)) == Ok(ticket) <==>
            && Clean(ticket.name) && CleanUrl(ticket.baseUrl)
            && CleanOptional(ticket.token) && CleanOptional(ticket.clusterId)
  {
    TicketRoundTrip(library, ticket);
    TrimmedClean(ticket.name);
    UrlClean(ticket.baseUrl);
    UrlShortens(ticket.baseUrl);
    GivenClean(ticket.token);
    GivenClean(ticket.clusterId);
    StripKeeps("Backend", Space);
  }

  // ---- Version 1 invites --------------------------------------------------------------------

  datatype Member = Member(name: string, backendId: string, baseUrl: string, token: Option<string>,
                           tlsVerify: bool)

  datatype Invite = Invite(clusterId: string, name: string, members: seq<Member>)

  function MemberJson(member: Member): Json {
    Object(map["name" := Text(Trimmed(member.name)), "backend_id" := Text(member.backendId),
               "base_url" := Text(Url(member.baseUrl)),
               "token" := if member.token.Some? && member.token.value != "" then Text(member.token.value) else Null,
               "tls_verify" := Bool(member.tlsVerify)])
  }

  function InviteJson(invite: Invite): Json {
    var members := seq(|invite.members|, i requires 0 <= i < |invite.members| => MemberJson(invite.members[i]));
    Object(map["v" := Number(1.0), "cluster_id" := Text(invite.clusterId), "name" := Text(Trimmed(invite.name)),
               "members" := List(members)])
  }

  // `create_cluster_invite`
  function CreateInvite(library: Library, invite: Invite): string {
    CLUSTER + Payload(library.dumps(InviteJson(invite)))
  }

  predicate IsJoinInvite(text: string) {
    CLUSTER <= Trimmed(text) && '@' in Trimmed(text)
  }

  // Equal to 1 in Python, where `True` is.
  predicate One(json: Json) {
    json == Number(1.0) || json == Bool(true)
  }

  function OrEmpty(library: Library, json: Json): string {
    if Truthy(json) then Trimmed(Str(library, json)) else ""
  }

  function ParseMember(library: Library, entry: Json): Option<Member> {
    if !entry.Object? || !Truthy(Get(entry.fields, "base_url")) || !Truthy(Get(entry.fields, "backend_id")) then None
    else
      var backendId := Get(entry.fields, "backend_id");
      var name := if Truthy(Get(entry.fields, "name")) then Get(entry.fields, "name") else backendId;
      var tlsVerify := if "tls_verify" in entry.fields then Truthy(entry.fields["tls_verify"]) else true;
      Some(Member(Trimmed(Str(library, name)), Trimmed(Str(library, backendId)),
                  Url(Str(library, Get(entry.fields, "base_url"))),
                  ReadOptional(library, Get(entry.fields, "token")), tlsVerify))
  }

  function ParseMembers(library: Library, entries: seq<Json>): Option<seq<Member>> {
    if entries == [] then Some([])
    else
      match (ParseMember(library, entries[0]), ParseMembers(library, entries[1..]))
      case (Some(member), Some(rest)) => Some([member] + rest)
      case _ => None
  }

  // `parse_cluster_invite`
  function ParseInvite(library: Library, text: string): Result<Invite, Error> {
    var cleaned := Trimmed(text);
    if !(CLUSTER <= cleaned) then Err(NotInvite)
    else if IsJoinInvite(cleaned) then Err(IsVersionTwo)
    else
      var padded := Padded(Url(cleaned[|CLUSTER|..]));
      if !Ascii(padded) then Err(NotAscii)
      else
        match UrlDecode(padded)
        case None => Err(NotBase64)
        case Some(bytes) =>
          match library.loads(bytes)
          case None => Err(NotJson)
          case Some(json) => ReadInvite(library, json)
  }

  function ReadInvite(library: Library, json: Json): Result<Invite, Error> {
    if !json.Object? || !One(Get(json.fields, "v")) || !Get(json.fields, "members").List? then Err(NotVersionOne)
    else
      var clusterId := OrEmpty(library, Get(json.fields, "cluster_id"));
      if clusterId == "" then Err(NoCluster)
      else
        match ParseMembers(library, Get(json.fields, "members").items)
        case None => Err(BadMember)
        case Some(members) => Ok(Invite(clusterId, OrEmpty(library, Get(json.fields, "name")), members))
  }

  // A member as the joining WebUI gets it, if it does.
  predicate Readable(member: Member) {
    Url(member.baseUrl) != "" && member.backendId != ""
  }

  predicate AllReadable(members: seq<Member>) {
    forall i :: 0 <= i < |members| ==> Readable(members[i])
  }

  lemma {:induction false} ReadableFirst(members: seq<Member>)
    requires members != []
    ensures AllReadable(members) <==> Readable(members[0]) && AllReadable(members[1..])
  {
    if Readable(members[0]) && AllReadable(members[1..]) {
      forall i | 0 <= i < |members| ensures Readable(members[i]) {
        if i > 0 { assert Readable(members[1..][i - 1]); }
      }
    }
  }

  function MemberBack(member: Member): Member {
    Member(if Trimmed(member.name) == "" then Trimmed(member.backendId) else Trimmed(member.name),
           Trimmed(member.backendId), Url(Url(member.baseUrl)),
           if member.token.Some? && member.token.value != "" then Some(Trimmed(member.token.value)) else None,
           member.tlsVerify)
  }

  function MembersBack(members: seq<Member>): seq<Member> {
    seq(|members|, i requires 0 <= i < |members| => MemberBack(members[i]))
  }

  lemma {:induction false} MemberFields(member: Member)
    ensures MemberJson(member).Object?
    ensures var fields := MemberJson(member).fields;
            && Get(fields, "base_url") == Text(Url(member.baseUrl))
            && Get(fields, "backend_id") == Text(member.backendId)
            && Get(fields, "name") == Text(Trimmed(member.name))
            && Get(fields, "token") == OptionalJson(if member.token == Some("") then None else member.token)
            && "tls_verify" in fields && fields["tls_verify"] == Bool(member.tlsVerify)
  {
  }

  lemma {:induction false} MemberRead(library: Library, member: Member)
    ensures ParseMember(library, MemberJson(member)) ==
            if Readable(member) then Some(MemberBack(member)) else None
  {
    hide MemberJson, Get, Strip;
    MemberFields(member);
    StripTwice(member.name, Space);
  }

  lemma {:induction false} MembersRead(library: Library, members: seq<Member>, entries: seq<Json>)
    requires |entries| == |members| && forall i :: 0 <= i < |members| ==> entries[i] == MemberJson(members[i])
    ensures ParseMembers(library, entries) ==
            if AllReadable(members) then Some(MembersBack(members)) else None
    decreases |members|
  {
    hide ParseMember, MemberJson, MemberBack, Readable;
    if members == [] {
      assert MembersBack(members) == [];
    } else {
      MemberRead(library, members[0]);
      MembersRead(library, members[1..], entries[1..]);
      ReadableFirst(members);
      assert MembersBack(members) == [MemberBack(members[0])] + MembersBack(members[1..]);
    }
  }

  /** No version 1 invite is taken for a version 2 one: its payload has no `@`. */
  lemma {:induction false} VersionsApart(library: Library, invite: Invite)
    ensures !IsJoinInvite(CreateInvite(library, invite))
    ensures ParseTicket(library, CreateInvite(library, invite)) == Err(IsClusterInvite)
  {
    var payload := Payload(library.dumps(InviteJson(invite)));
    PayloadDecodes(library.dumps(InviteJson(invite)));
    SafeUnchanged(payload);
    PayloadKept(CLUSTER, payload);
    assert '@' !in CLUSTER;
  }

  /** Every version 1 invite parses to its cluster and members, trimmed, unless one of them
      could not be used. */
  lemma {:induction false} InviteRoundTrip(library: Library, invite: Invite)
    requires Undone(library, InviteJson(invite))
    ensures ParseInvite(library, CreateInvite(library, invite)) ==
            if Trimmed(invite.clusterId) == "" then Err(NoCluster)
            else if !AllReadable(invite.members) then Err(BadMember)
            else Ok(Invite(Trimmed(invite.clusterId), Trimmed(invite.name), MembersBack(invite.members)))
  {
    var json := InviteJson(invite);
    var payload := Payload(library.dumps(json));
    VersionsApart(library, invite);
    PayloadDecodes(library.dumps(json));
    SafeUnchanged(payload);
    PayloadKept(CLUSTER, payload);
    InviteRead(library, invite);
  }

  lemma {:induction false} InviteFields(invite: Invite)
    ensures InviteJson(invite).Object?
    ensures var fields := InviteJson(invite).fields;
            && Get(fields, "v") == Number(1.0) && Get(fields, "cluster_id") == Text(invite.clusterId)
            && Get(fields, "name") == Text(Trimmed(invite.name)) && Get(fields, "members").List?
            && |Get(fields, "members").items| == |invite.members|
            && forall i :: 0 <= i < |invite.members| ==>
                 Get(fields, "members").items[i] == MemberJson(invite.members[i])
  {
  }

  lemma {:induction false} InviteRead(library: Library, invite: Invite)
    ensures ReadInvite(library, InviteJson(invite)) ==
            if Trimmed(invite.clusterId) == "" then Err(NoCluster)
            else if !AllReadable(invite.members) then Err(BadMember)
            else Ok(Invite(Trimmed(invite.clusterId), Trimmed(invite.name), MembersBack(invite.members)))
  {
    hide InviteJson, Get, ParseMembers, AllReadable, MembersBack, MemberJson, Strip;
    InviteFields(invite);
    var fields := InviteJson(invite).fields;
    StripTwice(invite.name, Space);
    MembersRead(library, invite.members, Get(fields, "members").items);
    StripKeeps("", Space);
  }

  // ---- Version 2 invites --------------------------------------------------------------------

  datatype Joining = Joining(code: string, netloc: string, fingerprint: string)

  function JoinText(joining: Joining): string {
    CLUSTER + (joining.code + ("@" + (joining.netloc + ("#" + joining.fingerprint))))
  }

  // `create_cluster_join_invite`
  function CreateJoinInvite(library: Library, code: string, entryUrl: string, fingerprint: string)
    : Result<string, Error>
  {
    match library.netloc(entryUrl)
    case None => Err(NotHttps)
    case Some(netloc) => Ok(JoinText(Joining(code, netloc, fingerprint)))
  }

  // The address in a URL, up to its path, query or fragment.
  function NetlocIn(text: string): string {
    if text == "" || text[0] in "/?#" then "" else [text[0]] + NetlocIn(text[1..])
  }

  // The address that `urlparse` finds in a URL that starts with https://.
  predicate Finds(library: Library, url: string) {
    && HTTPS <= url
    && library.netloc(url) == if NetlocIn(url[|HTTPS|..]) == "" then None else Some(NetlocIn(url[|HTTPS|..]))
  }

  const HTTPS := "https://"

  // `partition`: before and after the first c.
  function Partition(text: string, c: char): (string, string) {
    if text == "" then ("", "")
    else if text[0] == c then ("", text[1..])
    else
      var (before, after) := Partition(text[1..], c);
      ([text[0]] + before, after)
  }

  // `rpartition`: before and after the last c.
  function RPartition(text: string, c: char): (string, string) {
    if text == "" then ("", "")
    else if Last(text) == c then (Init(text), "")
    else
      var (before, after) := RPartition(Init(text), c);
      (before, after + [Last(text)])
  }

  // `parse_cluster_join_invite`
  function ParseJoinInvite(library: Library, text: string): Result<Joining, Error> {
    var cleaned := Trimmed(text);
    StripTwice(text, Space);
    if !IsJoinInvite(cleaned) then Err(NotInvite)
    else
      var (body, fingerprint) := Partition(cleaned[|CLUSTER|..], '#');
      var (code, address) := RPartition(body, '@');
      var netloc := Url(address);
      if code == "" || netloc == "" || Trimmed(fingerprint) == "" then Err(Incomplete)
      else if !library.addressOk(netloc) then Err(BadAddress)
      else Ok(Joining(Trimmed(code), netloc, Trimmed(fingerprint)))
  }

  lemma {:induction false} PartitionAt(before: string, c: char, after: string)
    requires c !in before
    ensures Partition(before + ([c] + after), c) == (before, after)
  {
    if before == "" {
      assert before + ([c] + after) == [c] + after && ([c] + after)[1..] == after;
    } else {
      PartitionAt(before[1..], c, after);
      assert (before + ([c] + after))[1..] == before[1..] + ([c] + after);
      assert [before[0]] + before[1..] == before;
    }
  }

  lemma {:induction false} RPartitionAt(before: string, c: char, after: string)
    requires c !in after
    ensures RPartition(before + ([c] + after), c) == (before, after)
    decreases |after|
  {
    var text := before + ([c] + after);
    if after == "" {
      assert Last(text) == c && Init(text) == before;
    } else {
      RPartitionAt(before, c, Init(after));
      assert Last(text) == Last(after) && Init(text) == before + ([c] + Init(after));
      assert Init(after) + [Last(after)] == after;
    }
  }

  // Whatever the text, the first part has no c, and the parts are no longer than it.
  lemma {:induction false} PartitionShort(text: string, c: char)
    ensures |Partition(text, c).0| <= |text|
    ensures forall i :: 0 <= i < |text| && text[i] == c ==> |Partition(text, c).0| <= i
  {
    if text != "" && text[0] != c {
      PartitionShort(text[1..], c);
      forall i | 0 <= i < |text| && text[i] == c ensures |Partition(text, c).0| <= i {
        assert text[1..][i - 1] == c;
      }
    }
  }

  lemma {:induction false} RPartitionShort(text: string, c: char)
    ensures var (before, after) := RPartition(text, c);
            && |before| + |after| <= |text| && (before != "" ==> |before| + |after| < |text|)
            && (forall i :: 0 <= i < |text| && text[i] == c ==> |after| < |text| - i)
    decreases |text|
  {
    if text != "" && Last(text) != c {
      RPartitionShort(Init(text), c);
    }
  }

  /** What of an invite survives the trip: a code and an address that cannot be taken for each
      other or for the fingerprint, and no blanks around any of them. */
  predicate Carries(library: Library, joining: Joining) {
    && Clean(joining.code) && '#' !in joining.code
    && CleanUrl(joining.netloc) && '#' !in joining.netloc && '@' !in joining.netloc
    && Clean(joining.fingerprint) && library.addressOk(joining.netloc)
  }

  lemma {:induction false} JoinTextRead(joining: Joining)
    ensures Trimmed(JoinText(joining)) == JoinText(joining.(fingerprint := StripRight(joining.fingerprint, Space)))
    ensures IsJoinInvite(JoinText(joining)) && IsJoinInvite(Trimmed(JoinText(joining)))
  {
    var kept := joining.(fingerprint := StripRight(joining.fingerprint, Space));
    var front := CLUSTER + (joining.code + ("@" + (joining.netloc + "#")));
    assert JoinText(joining) == front + joining.fingerprint;
    assert JoinText(kept) == front + kept.fingerprint;
    assert front[0] == 'u';
    PrefixKept(front, joining.fingerprint);
    assert JoinText(kept)[|CLUSTER| + |joining.code|] == '@';
    StripTwice(JoinText(joining), Space);
  }

  lemma {:induction false} JoinInviteCarried(library: Library, joining: Joining)
    requires Carries(library, joining)
    ensures ParseJoinInvite(library, JoinText(joining)) == Ok(joining)
  {
    JoinTextRead(joining);
    StripRightEnd(joining.fingerprint, Space);
    var body := joining.code + ("@" + joining.netloc);
    assert JoinText(joining)[|CLUSTER|..] == body + ("#" + joining.fingerprint);
    PartitionAt(body, '#', joining.fingerprint);
    RPartitionAt(joining.code, '@', joining.netloc);
    TrimmedClean(joining.code);
    UrlClean(joining.netloc);
    TrimmedClean(joining.fingerprint);
  }

  // A `#` before the separator shortens the body.
  lemma {:induction false} NoEarlyHash(whole: string, fingerprint: string, code: string, netloc: string)
    requires var (found, address) := RPartition(Partition(whole + ("#" + fingerprint), '#').0, '@');
             |code| <= |found| && |netloc| <= |address| && found != ""
    requires |whole| == |code| + 1 + |netloc|
    ensures '#' !in whole
  {
    var rest := whole + ("#" + fingerprint);
    PartitionShort(rest, '#');
    RPartitionShort(Partition(rest, '#').0, '@');
    forall i | 0 <= i < |whole| ensures whole[i] != '#' {
      assert rest[i] == whole[i];
    }
  }

  lemma {:induction false} NoAtAfter(code: string, netloc: string)
    requires |RPartition(code + ("@" + netloc), '@').1| >= |netloc|
    ensures '@' !in netloc
  {
    var whole := code + ("@" + netloc);
    RPartitionShort(whole, '@');
    forall i | 0 <= i < |netloc| ensures netloc[i] != '@' {
      assert whole[|code| + 1 + i] == netloc[i];
    }
  }

  lemma {:induction false} JoinInviteNeeds(library: Library, joining: Joining)
    requires ParseJoinInvite(library, JoinText(joining)) == Ok(joining)
    ensures Carries(library, joining)
  {
    JoinTextRead(joining);
    var fingerprint := StripRight(joining.fingerprint, Space);
    var whole := joining.code + ("@" + joining.netloc);
    var rest := whole + ("#" + fingerprint);
    assert Trimmed(JoinText(joining))[|CLUSTER|..] == rest;
    var (code, address) := RPartition(Partition(rest, '#').0, '@');
    StripEnds(code, Space);
    UrlShortens(address);
    NoEarlyHash(whole, fingerprint, joining.code, joining.netloc);
    PartitionAt(whole, '#', fingerprint);
    NoAtAfter(joining.code, joining.netloc);
    RPartitionAt(joining.code, '@', joining.netloc);
    JoinPartsClean(joining);
  }

  lemma {:induction false} JoinPartsClean(joining: Joining)
    requires joining.code == Trimmed(joining.code) != "" && joining.netloc == Url(joining.netloc) != ""
    requires joining.fingerprint == Trimmed(StripRight(joining.fingerprint, Space)) != ""
    ensures Clean(joining.code) && CleanUrl(joining.netloc) && Clean(joining.fingerprint)
  {
    TrimmedClean(joining.code);
    UrlClean(joining.netloc);
    StripRightEnd(joining.fingerprint, Space);
    StripEnds(StripRight(joining.fingerprint, Space), Space);
  }

  /** Parsing a version 2 invite undoes creating it exactly when its parts carry. */
  lemma {:induction false} JoinInviteRoundTrip(library: Library, joining: Joining)
    ensures ParseJoinInvite(library, JoinText(joining)) == Ok(joining) <==> Carries(library, joining)
    ensures ParseInvite(library, JoinText(joining)) == Err(IsVersionTwo)
    ensures ParseTicket(library, JoinText(joining)) == Err(IsClusterInvite)
  {
    if Carries(library, joining) {
      JoinInviteCarried(library, joining);
    } else if ParseJoinInvite(library, JoinText(joining)) == Ok(joining) {
      JoinInviteNeeds(library, joining);
      assert false;
    }
    JoinTextRead(joining);
  }

  lemma {:induction false} NetlocPrefix(text: string)
    ensures NetlocIn(text) <= text
    ensures NetlocIn(text) == text <==> forall i :: 0 <= i < |text| ==> text[i] !in "/?#"
  {
    if text != "" && text[0] !in "/?#" {
      NetlocPrefix(text[1..]);
      assert text == [text[0]] + text[1..];
    }
  }

  // With the code that was given, what is read is no longer than the address that was written.
  lemma {:induction false} AddressNoLonger(library: Library, joining: Joining, parsed: Joining)
    requires ParseJoinInvite(library, JoinText(joining)) == Ok(parsed) && parsed.code == joining.code
    ensures |parsed.netloc| <= |joining.netloc|
  {
    JoinTextRead(joining);
    var rest := joining.code + ("@" + joining.netloc) + ("#" + StripRight(joining.fingerprint, Space));
    assert Trimmed(JoinText(joining))[|CLUSTER|..] == rest;
    assert rest[|joining.code| + 1 + |joining.netloc|] == '#';
    PartitionShort(rest, '#');
    var body := Partition(rest, '#').0;
    RPartitionShort(body, '@');
    var (code, address) := RPartition(body, '@');
    StripEnds(code, Space);
    UrlShortens(address);
  }

  /** An invite created at an entry URL gives the code, that URL and the fingerprint back
      exactly when its parts carry and the URL has no path, query or fragment: a path is
      dropped. It cannot be created at a URL without an address. */
  lemma {:induction false} EntryUrlRoundTrip(library: Library, code: string, entryUrl: string, fingerprint: string)
    requires Finds(library, entryUrl)
    ensures var created := CreateJoinInvite(library, code, entryUrl, fingerprint);
            var netloc := NetlocIn(entryUrl[|HTTPS|..]);
            && (created.Ok? <==> netloc != "")
            && (created.Ok? ==>
                  ((exists parsed :: ParseJoinInvite(library, created.value) == Ok(parsed) && parsed.code == code &&
                                     HTTPS + parsed.netloc == entryUrl && parsed.fingerprint == fingerprint) <==>
                   Carries(library, Joining(code, netloc, fingerprint)) &&
                   forall i :: |HTTPS| <= i < |entryUrl| ==> entryUrl[i] !in "/?#"))
  {
    var tail := entryUrl[|HTTPS|..];
    var joining := Joining(code, NetlocIn(tail), fingerprint);
    NetlocPrefix(tail);
    assert entryUrl == HTTPS + tail;
    assert (forall i :: 0 <= i < |tail| ==> tail[i] !in "/?#") <==>
           (forall i :: |HTTPS| <= i < |entryUrl| ==> entryUrl[i] !in "/?#") by { Shifted(entryUrl, tail); }
    JoinInviteRoundTrip(library, joining);
    if CreateJoinInvite(library, code, entryUrl, fingerprint).Ok? {
      forall parsed | ParseJoinInvite(library, JoinText(joining)) == Ok(parsed) && parsed.code == code &&
                      HTTPS + parsed.netloc == entryUrl
        ensures parsed.netloc == NetlocIn(tail) == tail
      {
        AddressNoLonger(library, joining, parsed);
        assert (HTTPS + parsed.netloc)[|HTTPS|..] == parsed.netloc;
      }
    }
  }

  lemma {:induction false} Shifted(entryUrl: string, tail: string)
    requires entryUrl == HTTPS + tail
    ensures (forall i :: 0 <= i < |tail| ==> tail[i] !in "/?#") <==>
            (forall i :: |HTTPS| <= i < |entryUrl| ==> entryUrl[i] !in "/?#")
  {
    forall i | 0 <= i < |tail| ensures tail[i] == entryUrl[|HTTPS| + i] {
    }
    forall i | |HTTPS| <= i < |entryUrl| ensures entryUrl[i] == tail[i - |HTTPS|] {
    }
  }
}
