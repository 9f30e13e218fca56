/** This WebUI as a member of clusters: `join`, `sync`, `_add_member`, `_enrol` and `_repin`
    (cluster_membership.py), over the stored connections (connections.py) and pinned
    certificates (pinning.py).

    What other machines answer is the environment's: any answer, any certificate fetched
    or not, at every request. */
module Membership {
  import opened Basics
  import opened Text

  // ---- Certificates -------------------------------------------------------------------

  // A certificate is known by the fingerprint computed from it.
  datatype Certificate = Certificate(pem: string, fingerprint: string)

  function Upper(c: char): char {
    if 'a' <= c <= 'z' then c - 'a' + 'A' else c
  }

  // The characters a fingerprint keeps, in capitals.
  function Cleaned(value: string): string {
    if value == "" then ""
    else (if value[0] == ':' || value[0] == ' ' then [] else [Upper(value[0])]) + Cleaned(value[1..])
  }

  function Pairs(cleaned: string): seq<string>
    decreases |cleaned|
  {
    if |cleaned| <= 2 then [cleaned] else [cleaned[..2]] + Pairs(cleaned[2..])
  }

  // `normalise_fingerprint`
  function Normalise(value: string): string {
    Join(Pairs(Cleaned(Strip(value, Space))), ":")
  }

  // ---- Connections and members ----------------------------------------------------------

  datatype Connection = Connection(
    id: string,
    baseUrl: string,
    token: Option<string>,
    // Pinned: then the only certificate accepted.
    certificate: Option<Certificate>)

  datatype Identity = Identity(backendId: string, clusterId: Option<string>)

  datatype Credential = Credential(token: string, entryUrl: string, entryCertificate: Option<Certificate>)

  // A member as the cluster reports it.
  datatype Member = Member(backendId: string, apiUrl: Option<string>, fingerprint: Option<string>)

  // Neither absent nor empty.
  predicate Given(value: Option<string>) {
    value.Some? && value.value != ""
  }

  predicate Addable(m: Member) {
    Given(m.apiUrl) && Given(m.fingerprint)
  }

  function Slash(c: char): bool { c == '/' }

  function TrimSlash(url: string): string {
    StripRight(url, Slash)
  }

  // The address a connection is saved with.
  function BaseUrl(url: string): string {
    TrimSlash(Strip(url, Space))
  }

  type Connections = seq<Connection>
  type Identities = map<string, Identity>

  // Whether a connection stands for a member: at its address, or by its stored identity.
  predicate StandsFor(c: Connection, identities: Identities, m: Member) {
    (Given(m.apiUrl) && TrimSlash(c.baseUrl) == TrimSlash(m.apiUrl.value))
    || (c.id in identities && identities[c.id].backendId == m.backendId)
  }

  // `_connection_for`: the first that stands for the member.
  function ConnectionFor(connections: Connections, identities: Identities, m: Member): (found: Option<nat>)
    ensures found.Some? ==> found.value < |connections| && StandsFor(connections[found.value], identities, m)
    ensures found.Some? ==> forall i :: 0 <= i < found.value ==> !StandsFor(connections[i], identities, m)
    ensures found.None? ==> forall i :: 0 <= i < |connections| ==> !StandsFor(connections[i], identities, m)
  {
    if connections == [] then None
    else
      var earlier := ConnectionFor(Init(connections), identities, m);
      if earlier.Some? then earlier
      else if StandsFor(Last(connections), identities, m) then Some(|connections| - 1)
      else None
  }

  // ---- What every step keeps -----------------------------------------------------------------

  ghost predicate DistinctIds(connections: Connections) {
    forall i, j :: 0 <= i < j < |connections| ==> connections[i].id != connections[j].id
  }

  // No two connections have the same stored backend id.
  ghost predicate UniqueBackends(connections: Connections, identities: Identities) {
    forall i, j :: 0 <= i < j < |connections| && connections[i].id in identities && connections[j].id in identities ==>
      identities[connections[i].id].backendId != identities[connections[j].id].backendId
  }

  ghost predicate PinsReported(connections: Connections, reported: set<string>) {
    forall i :: 0 <= i < |connections| && connections[i].certificate.Some? ==>
      connections[i].certificate.value.fingerprint in reported
  }

  ghost predicate EntriesReported(credentials: map<string, Credential>, reported: set<string>) {
    forall cluster :: cluster in credentials && credentials[cluster].entryCertificate.Some? ==>
      credentials[cluster].entryCertificate.value.fingerprint in reported
  }

  // Connections are only added, and of the others only the pinned certificate changes.
  ghost predicate Grown(before: Connections, after: Connections) {
    && |before| <= |after|
    && forall i :: 0 <= i < |before| ==> after[i] == before[i].(certificate := after[i].certificate)
  }

  lemma {:induction false} GrownTwice(before: Connections, between: Connections, after: Connections)
    requires Grown(before, between) && Grown(between, after)
    ensures Grown(before, after)
  {
  }

  // Fingerprints the members report.
  ghost function Reports(members: seq<Member>): set<string> {
    set i | 0 <= i < |members| && Given(members[i].fingerprint) :: Normalise(members[i].fingerprint.value)
  }

  ghost function ReportsAll(answers: seq<seq<Member>>): set<string> {
    set k, f | 0 <= k < |answers| && f in Reports(answers[k]) :: f
  }

  lemma {:induction false} FreshExists(taken: set<string>) returns (id: string)
    ensures id !in taken
  {
    var longest: nat := 0;
    var rest := taken;
    while rest != {}
      invariant rest <= taken && forall t :: t in taken && t !in rest ==> |t| <= longest
      decreases rest
    {
      var t :| t in rest;
      if |t| > longest { longest := |t|; }
      rest := rest - {t};
    }
    id := seq(longest + 1, _ => 'x');
  }

  // ---- What a sync leaves ------------------------------------------------------------------------

  // The connection that would be pinned again if this member's certificate changed.
  ghost predicate PinnedFor(connections: Connections, identities: Identities, m: Member, i: nat) {
    && ConnectionFor(connections, identities, m) == Some(i)
    && i < |connections| && connections[i].certificate.Some? && Given(m.fingerprint)
  }

  // A sync has nothing to do for this member.
  ghost predicate QuietFor(connections: Connections, identities: Identities, m: Member) {
    match ConnectionFor(connections, identities, m)
    case None => !Addable(m)
    case Some(i) => connections[i].certificate.Some? && Given(m.fingerprint) ==>
                      Given(m.apiUrl) && connections[i].certificate.value.fingerprint == Normalise(m.fingerprint.value)
  }

  ghost predicate Quiet(connections: Connections, identities: Identities, members: seq<Member>) {
    forall k :: 0 <= k < |members| ==> QuietFor(connections, identities, members[k])
  }

  ghost predicate NoneToAdd(connections: Connections, identities: Identities, members: seq<Member>) {
    forall k :: 0 <= k < |members| ==> ConnectionFor(connections, identities, members[k]).Some? || !Addable(members[k])
  }

  // Members that one pinned connection stands for report one fingerprint, each with an address.
  ghost predicate Agree(connections: Connections, identities: Identities, members: seq<Member>) {
    forall k, l, i :: (0 <= k < |members| && 0 <= l < |members| &&
                       PinnedFor(connections, identities, members[k], i) &&
                       PinnedFor(connections, identities, members[l], i)) ==>
      Given(members[k].apiUrl) && Normalise(members[k].fingerprint.value) == Normalise(members[l].fingerprint.value)
  }

  // After the first n members: nothing is left to add, and a pinned connection holds the
  // fingerprint of the last member it stood for.
  ghost predicate Synced(connections: Connections, identities: Identities, members: seq<Member>, n: nat)
    requires n <= |members|
  {
    && (forall k :: 0 <= k < n ==> ConnectionFor(connections, identities, members[k]).Some? || !Addable(members[k]))
    && (forall k, i :: 0 <= k < n && PinnedFor(connections, identities, members[k], i) ==>
          HoldsLater(connections, identities, members, k, n, i))
  }

  ghost predicate HoldsLater(connections: Connections, identities: Identities, members: seq<Member>,
                             k: nat, n: nat, i: nat)
    requires n <= |members|
  {
    exists l :: k <= l < n && PinnedFor(connections, identities, members[l], i) &&
      connections[i].certificate.value.fingerprint == Normalise(members[l].fingerprint.value)
  }

  lemma {:induction false} QuietExactly(connections: Connections, identities: Identities, members: seq<Member>)
    requires Synced(connections, identities, members, |members|)
    ensures NoneToAdd(connections, identities, members)
    ensures Quiet(connections, identities, members) <==> Agree(connections, identities, members)
  {
    if Agree(connections, identities, members) {
      forall k | 0 <= k < |members| ensures QuietFor(connections, identities, members[k]) {
        var found := ConnectionFor(connections, identities, members[k]);
        if found.Some? && connections[found.value].certificate.Some? && Given(members[k].fingerprint) {
          assert PinnedFor(connections, identities, members[k], found.value);
          assert HoldsLater(connections, identities, members, k, |members|, found.value);
        }
      }
    }
    if Quiet(connections, identities, members) {
      forall k, l, i | 0 <= k < |members| && 0 <= l < |members| &&
        PinnedFor(connections, identities, members[k], i) && PinnedFor(connections, identities, members[l], i)
        ensures Given(members[k].apiUrl) &&
                Normalise(members[k].fingerprint.value) == Normalise(members[l].fingerprint.value)
      {
        assert QuietFor(connections, identities, members[k]) && QuietFor(connections, identities, members[l]);
      }
    }
  }

  // A pinned certificate changes nothing about which connection stands for a member.
  lemma {:induction false} SameFor(before: Connections, after: Connections, identities: Identities, m: Member)
    requires |after| == |before| && Grown(before, after)
    ensures ConnectionFor(after, identities, m) == ConnectionFor(before, identities, m)
    decreases |before|
  {
    if before != [] {
      assert Grown(Init(before), Init(after));
      SameFor(Init(before), Init(after), identities, m);
      assert StandsFor(Last(after), identities, m) == StandsFor(Last(before), identities, m);
    }
  }

  // Nor does a new identity, for a connection that is none of these.
  lemma {:induction false} NewIdentityFor(connections: Connections, identities: Identities, id: string,
                                          identity: Identity, m: Member)
    requires forall i :: 0 <= i < |connections| ==> connections[i].id != id
    ensures ConnectionFor(connections, identities[id := identity], m) == ConnectionFor(connections, identities, m)
    decreases |connections|
  {
    if connections != [] {
      NewIdentityFor(Init(connections), identities, id, identity, m);
    }
  }

  // A new connection stands for a member when none before it does.
  lemma {:induction false} AppendedFor(connections: Connections, c: Connection, identities: Identities,
                                       identity: Identity, m: Member)
    requires forall i :: 0 <= i < |connections| ==> connections[i].id != c.id
    ensures var found := ConnectionFor(connections, identities, m);
            var later := ConnectionFor(connections + [c], identities[c.id := identity], m);
            && (found.Some? ==> later == found)
            && (found.None? ==>
                later == if StandsFor(c, identities[c.id := identity], m) then Some(|connections|) else None)
  {
    assert Init(connections + [c]) == connections && Last(connections + [c]) == c;
    NewIdentityFor(connections, identities, c.id, identity, m);
  }

  // What one turn of the loop does for a member.
  datatype Turn = Turn(added: bool, repinned: bool, missing: bool)

  ghost predicate TurnOf(c0: Connections, i0: Identities, c1: Connections, i1: Identities, m: Member, turn: Turn) {
    && Grown(c0, c1)
    && match ConnectionFor(c0, i0, m)
       case None =>
         && !turn.repinned
         && (if turn.added then TurnAdds(c0, i0, c1, i1, m) && !turn.missing else c1 == c0 && i1 == i0)
         && (!turn.added && !turn.missing ==> !Addable(m))
         && (turn.missing ==> Addable(m))
       case Some(i) =>
         && !turn.added && i1 == i0 && |c1| == |c0| && (turn.repinned <==> c1 != c0)
         && (forall j :: 0 <= j < |c0| && j != i ==> c1[j] == c0[j])
         && (if c0[i].certificate.Some? && Given(m.fingerprint) then TurnPins(c0[i], c1[i], m, turn)
             else c1 == c0 && !turn.missing)
  }

  ghost predicate TurnAdds(c0: Connections, i0: Identities, c1: Connections, i1: Identities, m: Member) {
    && Addable(m) && |c1| == |c0| + 1 && c1 == c0 + [Last(c1)]
    && (forall i :: 0 <= i < |c0| ==> c0[i].id != Last(c1).id)
    && Last(c1).id in i1 && i1 == i0[Last(c1).id := i1[Last(c1).id]] && i1[Last(c1).id].backendId == m.backendId
    && Last(c1).certificate.Some? && Last(c1).certificate.value.fingerprint == Normalise(m.fingerprint.value)
  }

  ghost predicate TurnPins(before: Connection, after: Connection, m: Member, turn: Turn)
    requires before.certificate.Some? && Given(m.fingerprint)
  {
    && Given(m.apiUrl) && after.certificate.Some?
    && (if turn.missing then after == before
        else after.certificate.value.fingerprint == Normalise(m.fingerprint.value))
    && (before.certificate.value.fingerprint == Normalise(m.fingerprint.value) ==> after == before && !turn.missing)
  }

  lemma {:induction false} TurnSynced(c0: Connections, i0: Identities, c1: Connections, i1: Identities,
                                      members: seq<Member>, n: nat, turn: Turn)
    requires n < |members| && Synced(c0, i0, members, n)
    requires TurnOf(c0, i0, c1, i1, members[n], turn) && !turn.missing
    ensures Synced(c1, i1, members, n + 1)
  {
    if turn.added {
      TurnAddSynced(c0, i0, c1, i1, members, n);
    } else {
      TurnKeepSynced(c0, i0, c1, i1, members, n, turn);
    }
  }

  // Nobody's connection changes.
  lemma {:induction false} KeepsFor(c0: Connections, i0: Identities, c1: Connections, i1: Identities,
                                    members: seq<Member>, n: nat, turn: Turn)
    requires n < |members| && TurnOf(c0, i0, c1, i1, members[n], turn) && !turn.added
    ensures forall k :: 0 <= k < |members| ==>
              ConnectionFor(c1, i1, members[k]) == ConnectionFor(c0, i0, members[k])
  {
    hide ConnectionFor, StandsFor, TurnPins, Addable;
    forall k | 0 <= k < |members| ensures ConnectionFor(c1, i1, members[k]) == ConnectionFor(c0, i0, members[k]) {
      SameFor(c0, c1, i0, members[k]);
    }
  }

  lemma {:induction false} TurnKeepSynced(c0: Connections, i0: Identities, c1: Connections, i1: Identities,
                                          members: seq<Member>, n: nat, turn: Turn)
    requires n < |members| && Synced(c0, i0, members, n)
    requires TurnOf(c0, i0, c1, i1, members[n], turn) && !turn.missing && !turn.added
    ensures Synced(c1, i1, members, n + 1)
  {
    var m := members[n];
    KeepsFor(c0, i0, c1, i1, members, n, turn);
    hide ConnectionFor, StandsFor, Normalise, Grown;
    forall k, i: nat | 0 <= k < n + 1 && PinnedFor(c1, i1, members[k], i)
      ensures HoldsLater(c1, i1, members, k, n + 1, i)
    {
      if ConnectionFor(c0, i0, m) == Some(i) && Given(m.fingerprint) {
        assert PinnedFor(c1, i1, m, i);
      } else {
        assert c1[i] == c0[i];
        assert k < n && PinnedFor(c0, i0, members[k], i);
        assert HoldsLater(c0, i0, members, k, n, i);
        var l :| k <= l < n && PinnedFor(c0, i0, members[l], i) &&
          c0[i].certificate.value.fingerprint == Normalise(members[l].fingerprint.value);
        assert PinnedFor(c1, i1, members[l], i);
      }
    }
  }

  lemma {:induction false} TurnAddSynced(c0: Connections, i0: Identities, c1: Connections, i1: Identities,
                                         members: seq<Member>, n: nat)
    requires n < |members| && Synced(c0, i0, members, n)
    requires ConnectionFor(c0, i0, members[n]).None? && TurnAdds(c0, i0, c1, i1, members[n])
    ensures Synced(c1, i1, members, n + 1)
  {
    NewOne(c0, i0, c1, i1, members[n]);
    hide ConnectionFor, StandsFor, TurnAdds;
    forall k | 0 <= k < |members| ensures AddedFor(c0, i0, c1, i1, members[k]) {
      AddedForEach(c0, i0, c1, i1, members[n], members[k]);
    }
    forall k | 0 <= k < n + 1 ensures ConnectionFor(c1, i1, members[k]).Some? || !Addable(members[k]) {
      assert AddedFor(c0, i0, c1, i1, members[k]);
    }
    forall k, i: nat | 0 <= k < n + 1 && PinnedFor(c1, i1, members[k], i)
      ensures HoldsLater(c1, i1, members, k, n + 1, i)
    {
      if i < |c0| { StillHolds(c0, i0, c1, i1, members, n, k, i); }
    }
  }

  // The connection that was added stands for its member.
  lemma {:induction false} NewOne(c0: Connections, i0: Identities, c1: Connections, i1: Identities, m: Member)
    requires ConnectionFor(c0, i0, m).None? && TurnAdds(c0, i0, c1, i1, m)
    ensures c1 != [] && |c1| == |c0| + 1 && StandsFor(Last(c1), i1, m) && PinnedFor(c1, i1, m, |c0|)
    ensures forall i :: 0 <= i < |c0| ==> c1[i] == c0[i]
    ensures Given(m.fingerprint) && c1[|c0|].certificate.value.fingerprint == Normalise(m.fingerprint.value)
  {
    AppendedFor(c0, Last(c1), i0, i1[Last(c1).id], m);
  }

  lemma {:induction false} AddedForEach(c0: Connections, i0: Identities, c1: Connections, i1: Identities, m: Member,
                                        other: Member)
    requires TurnAdds(c0, i0, c1, i1, m)
    ensures AddedFor(c0, i0, c1, i1, other)
  {
    AppendedFor(c0, Last(c1), i0, i1[Last(c1).id], other);
  }

  ghost predicate AddedFor(c0: Connections, i0: Identities, c1: Connections, i1: Identities, m: Member) {
    var found, later := ConnectionFor(c0, i0, m), ConnectionFor(c1, i1, m);
    if found.Some? then later == found else later == None || later == Some(|c0|)
  }

  lemma {:induction false} StillHolds(c0: Connections, i0: Identities, c1: Connections, i1: Identities,
                                      members: seq<Member>, n: nat, k: nat, i: nat)
    requires k <= n < |members| && Synced(c0, i0, members, n)
    requires ConnectionFor(c0, i0, members[n]).None? && TurnAdds(c0, i0, c1, i1, members[n])
    requires forall k :: 0 <= k < |members| ==> AddedFor(c0, i0, c1, i1, members[k])
    requires i < |c0| && PinnedFor(c1, i1, members[k], i)
    ensures HoldsLater(c1, i1, members, k, n + 1, i)
  {
    assert AddedFor(c0, i0, c1, i1, members[k]) && c1[i] == c0[i];
    assert k < n && PinnedFor(c0, i0, members[k], i);
    assert HoldsLater(c0, i0, members, k, n, i);
    var l :| k <= l < n && PinnedFor(c0, i0, members[l], i) &&
      c0[i].certificate.value.fingerprint == Normalise(members[l].fingerprint.value);
    assert AddedFor(c0, i0, c1, i1, members[l]);
    assert PinnedFor(c1, i1, members[l], i);
  }

  lemma {:induction false} TurnNoneToAdd(c0: Connections, i0: Identities, c1: Connections, i1: Identities,
                                         members: seq<Member>, n: nat, turn: Turn)
    requires n < |members| && NoneToAdd(c0, i0, members) && TurnOf(c0, i0, c1, i1, members[n], turn)
    ensures !turn.added && NoneToAdd(c1, i1, members)
  {
    assert ConnectionFor(c0, i0, members[n]).Some? || !Addable(members[n]);
    forall k | 0 <= k < |members| ensures ConnectionFor(c1, i1, members[k]).Some? || !Addable(members[k]) {
      SameFor(c0, c1, i0, members[k]);
    }
  }

  lemma {:induction false} TurnQuiet(c0: Connections, i0: Identities, c1: Connections, i1: Identities, m: Member,
                                     turn: Turn)
    requires TurnOf(c0, i0, c1, i1, m, turn)
    ensures QuietFor(c0, i0, m) ==> c1 == c0 && i1 == i0 && !turn.missing
    ensures c1 == c0 && !turn.missing ==> QuietFor(c0, i0, m) && i1 == i0
  {
    var found := ConnectionFor(c0, i0, m);
    if found.Some? && c1[found.value] == c0[found.value] {
      assert forall j :: 0 <= j < |c0| ==> c1[j] == c0[j];
      assert c1 == c0;
    }
  }

  // The loop of `sync` so far: after n members, from c0 and i0.
  ghost predicate SoFar(c0: Connections, i0: Identities, c: Connections, i: Identities, members: seq<Member>, n: nat,
                        adds: nat, repins: nat, fetched: bool)
    requires n <= |members|
  {
    && Grown(c0, c) && adds == |c| - |c0|
    && (fetched ==> Synced(c, i, members, n))
    && (NoneToAdd(c0, i0, members) ==> adds == 0 && NoneToAdd(c, i, members))
    && (repins == 0 && adds == 0 ==> c == c0 && i == i0)
    && (Quiet(c0, i0, members) ==> fetched && repins == 0 && adds == 0)
    && (fetched && repins == 0 && adds == 0 ==> forall k :: 0 <= k < n ==> QuietFor(c0, i0, members[k]))
  }

  lemma {:induction false} SoFarTurn(c0: Connections, i0: Identities, c: Connections, i: Identities, c1: Connections,
                                     i1: Identities, members: seq<Member>, n: nat,
                                     adds: nat, repins: nat, fetched: bool, turn: Turn)
    requires n < |members| && SoFar(c0, i0, c, i, members, n, adds, repins, fetched)
    requires TurnOf(c, i, c1, i1, members[n], turn)
    ensures SoFar(c0, i0, c1, i1, members, n + 1, adds + (if turn.added then 1 else 0),
                  repins + (if turn.repinned then 1 else 0), fetched && !turn.missing)
  {
    if fetched && !turn.missing { TurnSynced(c, i, c1, i1, members, n, turn); }
    if NoneToAdd(c0, i0, members) { TurnNoneToAdd(c, i, c1, i1, members, n, turn); }
    TurnQuiet(c, i, c1, i1, members[n], turn);
    if Quiet(c0, i0, members) { assert QuietFor(c0, i0, members[n]); }
  }

  lemma {:induction false} SoFarStart(c: Connections, i: Identities, members: seq<Member>)
    ensures SoFar(c, i, c, i, members, 0, 0, 0, true)
  {
    NoneYet(c, i, members);
    hide Synced, NoneToAdd, Quiet;
  }

  lemma {:induction false} NoneYet(c: Connections, i: Identities, members: seq<Member>)
    ensures Synced(c, i, members, 0) && Grown(c, c)
  {
  }

  lemma {:induction false} SoFarEnd(c0: Connections, i0: Identities, c: Connections, i: Identities,
                                    members: seq<Member>, adds: nat, repins: nat, fetched: bool)
    requires SoFar(c0, i0, c, i, members, |members|, adds, repins, fetched)
    ensures fetched ==> Synced(c, i, members, |members|)
    ensures Quiet(c0, i0, members) ==> fetched && repins == 0 && c == c0 && i == i0
    ensures fetched && repins == 0 && adds == 0 ==> Quiet(c0, i0, members)
  {
    hide Synced, NoneToAdd, QuietFor;
  }

  lemma {:induction false} SoFarAdds(c0: Connections, i0: Identities, c: Connections, i: Identities,
                                     members: seq<Member>, n: nat, adds: nat, repins: nat, fetched: bool)
    requires n <= |members| && SoFar(c0, i0, c, i, members, n, adds, repins, fetched)
    ensures Grown(c0, c) && adds == |c| - |c0| && (NoneToAdd(c0, i0, members) ==> adds == 0)
  {
    hide Synced, NoneToAdd, Quiet, QuietFor;
  }

  // A turn that raises had something to do.
  lemma {:induction false} SoFarRaised(c0: Connections, i0: Identities, c: Connections, i: Identities,
                                       members: seq<Member>, n: nat, adds: nat, repins: nat, fetched: bool)
    requires n < |members| && SoFar(c0, i0, c, i, members, n, adds, repins, fetched) && !QuietFor(c, i, members[n])
    ensures !Quiet(c0, i0, members)
  {
    hide Synced, NoneToAdd, QuietFor;
  }

  lemma {:induction false} ReportedBy(members: seq<Member>, k: nat)
    requires k < |members|
    ensures Given(members[k].fingerprint) ==> Normalise(members[k].fingerprint.value) in Reports(members)
  {
    hide Normalise;
  }

  /** Two members that one pinned connection stands for, with different fingerprints: the sync
      of such a pair leaves this state, and the next one re-pins again. */
  lemma {:induction false} Disagreeing(c: Connection, identities: Identities, first: Member, last: Member)
    requires StandsFor(c, identities, first) && StandsFor(c, identities, last) && c.certificate.Some?
    requires Given(first.fingerprint) && Given(last.fingerprint)
    requires c.certificate.value.fingerprint == Normalise(last.fingerprint.value)
    requires Normalise(first.fingerprint.value) != Normalise(last.fingerprint.value)
    ensures Synced([c], identities, [first, last], 2)
    ensures !Agree([c], identities, [first, last]) && !Quiet([c], identities, [first, last])
  {
    hide Normalise;
    var members := [first, last];
    assert ConnectionFor([c], identities, first) == Some(0) by { StandsAlone(c, identities, first); }
    assert ConnectionFor([c], identities, last) == Some(0) by { StandsAlone(c, identities, last); }
    hide StandsFor, ConnectionFor;
    assert PinnedFor([c], identities, members[0], 0) && PinnedFor([c], identities, members[1], 0);
    forall k, i: nat | 0 <= k < 2 && PinnedFor([c], identities, members[k], i)
      ensures HoldsLater([c], identities, members, k, 2, i)
    {
      assert k <= 1 < 2 && PinnedFor([c], identities, members[1], i);
    }
    assert !QuietFor([c], identities, members[0]);
  }

  lemma {:induction false} StandsAlone(c: Connection, identities: Identities, m: Member)
    requires StandsFor(c, identities, m)
    ensures ConnectionFor([c], identities, m) == Some(0)
  {
    hide StandsFor;
    assert StandsFor([c][0], identities, m);
  }

  // What a cluster says of itself.
  datatype Answer = Answer(clusterId: Option<string>, members: seq<Member>)

  datatype Invite = Invite(entryUrl: string, fingerprint: string)

  // How a sync ends: with no token, with an exception, or through all members.
  datatype SyncEnd = Skipped | Raised | Completed(adds: nat, repins: nat, fetched: bool)

  datatype Step =
    | JoinStep(invite: Invite, reply: Option<Answer>, token: string)
    | SyncStep(clusterId: string, answer: Option<Answer>, described: seq<seq<Member>>, now: real)

  // The fingerprints a step's invite and answers report.
  ghost function Told(step: Step): set<string> {
    match step
    case JoinStep(invite, reply, _) =>
      {Normalise(invite.fingerprint)} + if reply.Some? then Reports(reply.value.members) else {}
    case SyncStep(_, answer, described, _) =>
      (if answer.Some? then Reports(answer.value.members) else {}) + ReportsAll(described)
  }

  ghost function ToldAll(steps: seq<Step>): set<string> {
    if steps == [] then {} else ToldAll(Init(steps)) + Told(Last(steps))
  }

  const ENROL_RETRY_SECONDS := 600.0

  datatype Added = New(id: string) | AlreadyConnected | NoAddress | NotFetched | Refused

  // The address answers with the certificate of this fingerprint.
  ghost predicate Presents(presented: Option<Certificate>, expected: string) {
    presented.Some? && presented.value.fingerprint == Normalise(expected)
  }

  class ClusterMembership {
    var connections: Connections
    var identities: Identities
    var credentials: map<string, Credential>
    // Fingerprints reported by an invite that was redeemed, or by a cluster's answer.
    ghost var reported: set<string>
    // When this WebUI last tried to enrol in each cluster.
    var enrolTried: map<string, real>
    // Whether connections.py accepts an address: http or https, no query or fragment.
    const validUrl: string -> bool
    // Whether a reply from there may hold a token: over HTTPS, or on this machine.
    const tokenSafe: string -> bool

    ghost predicate Valid()
      reads this
    {
      && DistinctIds(connections)
      && PinsReported(connections, reported) && EntriesReported(credentials, reported)
      && forall cluster :: cluster in credentials && credentials[cluster].entryCertificate.None? ==>
           tokenSafe(credentials[cluster].entryUrl)
    }

    constructor (connections: Connections, identities: Identities, validUrl: string -> bool, tokenSafe: string -> bool)
      requires DistinctIds(connections)
      ensures this.connections == connections && this.identities == identities && credentials == map[]
      ensures this.validUrl == validUrl && this.tokenSafe == tokenSafe && enrolTried == map[]
      ensures reported == set i | 0 <= i < |connections| && connections[i].certificate.Some? ::
                            connections[i].certificate.value.fingerprint
      ensures Valid()
    {
      this.connections, this.identities, this.validUrl, this.tokenSafe := connections, identities, validUrl, tokenSafe;
      credentials, enrolTried := map[], map[];
      reported := set i | 0 <= i < |connections| && connections[i].certificate.Some? ::
                        connections[i].certificate.value.fingerprint;
    }

    // `pinned_certificate`: the one the address presents now, when it is the one expected.
    method PinnedCertificate(url: string, expected: string)
      returns (certificate: Option<Certificate>, ghost presented: Option<Certificate>)
      ensures certificate.Some? <==> Presents(presented, expected)
      ensures certificate.Some? ==> certificate == presented && certificate.value.fingerprint == Normalise(expected)
    {
      var now: Option<Certificate> := *;
      presented := now;
      certificate := if now.Some? && now.value.fingerprint == Normalise(expected) then now else None;
    }

    // `create_pinned` and the identity saved after it.
    method CreatePinned(clusterId: string, m: Member, token: string, certificate: Certificate)
      returns (id: Option<string>)
      requires Valid() && Addable(m) && certificate.fingerprint in reported
      modifies this`connections, this`identities
      ensures Valid()
      ensures id.None? <==> !validUrl(BaseUrl(m.apiUrl.value))
      ensures id.None? ==> connections == old(connections) && identities == old(identities)
      ensures id.Some? ==>
                && (forall i :: 0 <= i < |old(connections)| ==> old(connections)[i].id != id.value)
                && connections == old(connections) +
                     [Connection(id.value, BaseUrl(m.apiUrl.value), Some(token), Some(certificate))]
                && identities == old(identities)[id.value := Identity(m.backendId, Some(clusterId))]
    {
      var url := BaseUrl(m.apiUrl.value);
      if !validUrl(url) { return None; }
      ghost var some := FreshExists((set i | 0 <= i < |connections| :: connections[i].id) + {"default"});
      var chosen: string :| chosen !in (set i | 0 <= i < |connections| :: connections[i].id) + {"default"};
      ghost var before := connections;
      forall i | 0 <= i < |before| ensures before[i].id != chosen {
        assert before[i].id in set i | 0 <= i < |before| :: before[i].id;
      }
      connections := connections + [Connection(chosen, url, Some(token), Some(certificate))];
      identities := identities[chosen := Identity(m.backendId, Some(clusterId))];
      id := Some(chosen);
    }

    // `_add_member`. A certificate already fetched from that address is pinned as it is.
    method AddMember(clusterId: string, m: Member, token: string, known: map<string, Certificate>)
      returns (added: Added, ghost presented: Option<Certificate>)
      requires Valid() && forall url :: url in known ==> known[url].fingerprint in reported
      requires Given(m.fingerprint) ==> Normalise(m.fingerprint.value) in reported
      modifies this`connections, this`identities
      ensures Valid() && Grown(old(connections), connections)
      ensures old(UniqueBackends(connections, identities)) ==> UniqueBackends(connections, identities)
      ensures !added.New? ==> connections == old(connections) && identities == old(identities)
      ensures added.AlreadyConnected? <==> ConnectionFor(old(connections), old(identities), m).Some?
      ensures added.NoAddress? <==> ConnectionFor(old(connections), old(identities), m).None? && !Addable(m)
      ensures added.NotFetched? || added.New? || added.Refused? ==> Addable(m)
      ensures ConnectionFor(old(connections), old(identities), m).None? && Addable(m) ==>
                && (added.NotFetched? <==>
                      m.apiUrl.value !in known && !Presents(presented, m.fingerprint.value))
                && (added.Refused? ==> !validUrl(BaseUrl(m.apiUrl.value)))
                && (added.New? ==> validUrl(BaseUrl(m.apiUrl.value)))
      ensures added.New? ==>
                && connections != [] && connections == old(connections) + [Last(connections)]
                && identities == old(identities)[added.id := Identity(m.backendId, Some(clusterId))]
                && Last(connections).id == added.id && Last(connections).baseUrl == BaseUrl(m.apiUrl.value)
                && Last(connections).token == Some(token) && Last(connections).certificate.Some?
                && Last(connections).certificate.value.fingerprint ==
                     if m.apiUrl.value in known then known[m.apiUrl.value].fingerprint
                     else Normalise(m.fingerprint.value)
      ensures added.New? ==> forall i :: 0 <= i < |old(connections)| ==> old(connections)[i].id != added.id
    {
      var existing := ConnectionFor(connections, identities, m);
      presented := None;
      if existing.Some? { return AlreadyConnected, presented; }
      if !Addable(m) { return NoAddress, presented; }
      var certificate: Option<Certificate>;
      if m.apiUrl.value in known { certificate := Some(known[m.apiUrl.value]); }
      else { certificate, presented := PinnedCertificate(m.apiUrl.value, m.fingerprint.value); }
      if certificate.None? { return NotFetched, presented; }
      var id := CreatePinned(clusterId, m, token, certificate.value);
      added := if id.Some? then New(id.value) else Refused;
    }

    // `_repin`: a member that presents the certificate it now reports is pinned to that one.
    method Repin(i: nat, m: Member) returns (repinned: bool, missing: bool)
      requires Valid() && i < |connections| && connections[i].certificate.Some?
      requires Given(m.fingerprint) && Normalise(m.fingerprint.value) in reported
      modifies this`connections
      ensures Valid() && Grown(old(connections), connections)
      ensures |connections| == |old(connections)|
      ensures forall j :: 0 <= j < |connections| && j != i ==> connections[j] == old(connections)[j]
      ensures connections[i].certificate.Some?
      ensures repinned <==> connections != old(connections)
      ensures !missing ==> connections[i].certificate.value.fingerprint == Normalise(m.fingerprint.value)
      ensures missing ==> !repinned
      ensures old(connections)[i].certificate.value.fingerprint == Normalise(m.fingerprint.value) ==>
                !repinned && !missing
    {
      var c := connections[i];
      if c.certificate.value.fingerprint == Normalise(m.fingerprint.value) { return false, false; }
      var certificate, _ := PinnedCertificate(c.baseUrl, m.fingerprint.value);
      if certificate.None? { return false, true; }
      connections := connections[i := c.(certificate := certificate)];
      repinned, missing := true, false;
      assert connections[i] != old(connections)[i];
    }

    // One turn of the loop of `sync`; None when it raises.
    method SyncMember(clusterId: string, m: Member, token: string) returns (turn: Option<Turn>)
      requires Valid() && (Given(m.fingerprint) ==> Normalise(m.fingerprint.value) in reported)
      modifies this`connections, this`identities
      ensures Valid()
      ensures old(UniqueBackends(connections, identities)) ==> UniqueBackends(connections, identities)
      ensures turn.None? ==> connections == old(connections) && identities == old(identities)
      ensures turn.None? ==> !old(QuietFor(connections, identities, m))
      ensures turn.None? ==> ConnectionFor(connections, identities, m).Some? || Addable(m)
      ensures turn.Some? ==> TurnOf(old(connections), old(identities), connections, identities, m, turn.value)
    {
      var found := ConnectionFor(connections, identities, m);
      if found.None? {
        var added, _ := AddMember(clusterId, m, token, map[]);
        if added.Refused? { return None; }
        turn := Some(Turn(added.New?, false, added.NotFetched?));
      } else if connections[found.value].certificate.Some? && Given(m.fingerprint) {
        if !Given(m.apiUrl) { return None; }
        var repinned, missing := Repin(found.value, m);
        turn := Some(Turn(false, repinned, missing));
      } else {
        turn := Some(Turn(false, false, false));
      }
    }

    /** The loop of `sync` over the members of a cluster's answer. `fetched` says whether every
        certificate asked for was presented. */
    method SyncMembers(clusterId: string, members: seq<Member>, token: string)
      returns (raised: bool, adds: nat, repins: nat, fetched: bool)
      requires Valid() && Reports(members) <= reported
      modifies this`connections, this`identities
      ensures Valid() && Grown(old(connections), connections)
      ensures old(UniqueBackends(connections, identities)) ==> UniqueBackends(connections, identities)
      ensures adds == |connections| - |old(connections)|
      ensures !raised && fetched ==> Synced(connections, identities, members, |members|)
      ensures old(NoneToAdd(connections, identities, members)) ==> adds == 0
      ensures old(Quiet(connections, identities, members)) ==>
                !raised && fetched && repins == 0 && connections == old(connections) && identities == old(identities)
      ensures !raised && fetched && repins == 0 && adds == 0 ==> old(Quiet(connections, identities, members))
    {
      hide SoFar, UniqueBackends, QuietFor, Synced, Quiet, NoneToAdd, Reports, Grown, TurnOf, Normalise;
      raised, adds, repins, fetched := false, 0, 0, true;
      ghost var c0, i0 := connections, identities;
      SoFarStart(c0, i0, members);
      for k := 0 to |members|
        invariant Valid() && Reports(members) <= reported && !raised
        invariant UniqueBackends(c0, i0) ==> UniqueBackends(connections, identities)
        invariant SoFar(c0, i0, connections, identities, members, k, adds, repins, fetched)
      {
        var m := members[k];
        ReportedBy(members, k);
        ghost var c, i := connections, identities;
        var turn := SyncMember(clusterId, m, token);
        if turn.None? {
          SoFarRaised(c0, i0, c, i, members, k, adds, repins, fetched);
          SoFarAdds(c0, i0, c, i, members, k, adds, repins, fetched);
          return true, adds, repins, fetched;
        }
        SoFarTurn(c0, i0, c, i, connections, identities, members, k, adds, repins, fetched, turn.value);
        if turn.value.added { adds := adds + 1; }
        if turn.value.repinned { repins := repins + 1; }
        if turn.value.missing { fetched := false; }
      }
      SoFarAdds(c0, i0, connections, identities, members, |members|, adds, repins, fetched);
      SoFarEnd(c0, i0, connections, identities, members, adds, repins, fetched);
    }

    /** `_enrol`: at most once in ten minutes, at a member whose reply is safe, else at a
        member the cluster reports, pinned to the fingerprint it reports for it. */
    method Enrol(clusterId: string, described: seq<seq<Member>>, now: real) returns (token: Option<string>)
      requires Valid()
      modifies this`credentials, this`enrolTried, this`reported
      ensures Valid() && old(reported) <= reported <= old(reported) + ReportsAll(described)
      ensures forall other :: other != clusterId ==>
                (other in credentials <==> other in old(credentials)) &&
                (other in credentials ==> credentials[other] == old(credentials)[other])
      ensures if token.Some? then clusterId in credentials && credentials[clusterId].token == token.value
              else credentials == old(credentials)
      ensures var early := clusterId in old(enrolTried) && now - old(enrolTried)[clusterId] < ENROL_RETRY_SECONDS;
              if early then token.None? && enrolTried == old(enrolTried)
              else enrolTried == old(enrolTried)[clusterId := now]
    {
      if clusterId in enrolTried && now - enrolTried[clusterId] < ENROL_RETRY_SECONDS { return None; }
      enrolTried := enrolTried[clusterId := now];
      for i := 0 to |connections|
        invariant Valid() && credentials == old(credentials) && reported == old(reported)
        invariant enrolTried == old(enrolTried)[clusterId := now]
      {
        var c := connections[i];
        if !InCluster(c, clusterId) || !tokenSafe(c.baseUrl) { continue; }
        var reply: Option<string> := *;
        if reply.Some? {
          credentials := credentials[clusterId := Credential(reply.value, c.baseUrl, None)];
          return reply;
        }
      }
      token := EnrolOverHttps(clusterId, described);
    }

    // Whether a connection is in the cluster, with an admin token of its own.
    predicate InCluster(c: Connection, clusterId: string)
      reads this
    {
      c.id in identities && identities[c.id].clusterId == Some(clusterId)
      && Given(c.token) && !("usrc_" <= c.token.value)
    }

    // What the backend of the i-th connection answers is described[i], if it answers.
    method EnrolOverHttps(clusterId: string, described: seq<seq<Member>>) returns (token: Option<string>)
      requires Valid()
      modifies this`credentials, this`reported
      ensures Valid() && old(reported) <= reported <= old(reported) + ReportsAll(described)
      ensures if token.Some? then
                clusterId in credentials && credentials[clusterId].token == token.value &&
                credentials[clusterId].entryCertificate.Some? &&
                credentials == old(credentials)[clusterId := credentials[clusterId]]
              else credentials == old(credentials)
    {
      for i := 0 to |connections|
        invariant Valid() && credentials == old(credentials)
        invariant old(reported) <= reported <= old(reported) + ReportsAll(described)
      {
        var answers: bool := *;
        if !InCluster(connections[i], clusterId) || !answers || i >= |described| { continue; }
        var members := described[i];
        reported := reported + Reports(members);
        var entry := FirstAddable(members);
        if entry.None? { continue; }
        var m := members[entry.value];
        assert Normalise(m.fingerprint.value) in Reports(members);
        var certificate, _ := PinnedCertificate(m.apiUrl.value, m.fingerprint.value);
        var reply: Option<string> := *;
        if certificate.Some? && reply.Some? {
          credentials := credentials[clusterId := Credential(reply.value, m.apiUrl.value, certificate)];
          return reply;
        }
      }
      token := None;
    }

    /** `join`: the members of the answer, with the certificates the invite and they name. */
    method Join(invite: Invite, answer: Option<Answer>, token: string) returns (results: Option<seq<Added>>)
      requires Valid()
      modifies this`connections, this`identities, this`credentials, this`reported
      ensures Valid() && Grown(old(connections), connections)
      ensures old(UniqueBackends(connections, identities)) ==> UniqueBackends(connections, identities)
      ensures old(reported) <= reported
      ensures reported <= old(reported) + {Normalise(invite.fingerprint)} +
                          (if answer.Some? then Reports(answer.value.members) else {})
      ensures answer.None? || answer.value.clusterId.None? ==>
                results.None? && credentials == old(credentials) && connections == old(connections)
      ensures results.Some? ==>
                && answer.Some? && answer.value.clusterId.Some? && |results.value| == |answer.value.members|
                && answer.value.clusterId.value in credentials
                && StoredFrom(credentials[answer.value.clusterId.value], invite, token)
                && JoinedWith(connections, identities, answer.value.members, results.value)
    {
      var entry, _ := PinnedCertificate(invite.entryUrl, invite.fingerprint);
      if entry.None? || answer.None? { return None; }
      reported := reported + {Normalise(invite.fingerprint)} + Reports(answer.value.members);
      if answer.value.clusterId.None? { return None; }
      var clusterId := answer.value.clusterId.value;
      credentials := credentials[clusterId := Credential(token, invite.entryUrl, entry)];
      var known := map[invite.entryUrl := entry.value];
      var added: seq<Added> := [];
      ghost var start, heard := old(connections), reported;
      for k := 0 to |answer.value.members|
        invariant Valid() && Grown(old(connections), connections) && reported == heard
        invariant old(UniqueBackends(connections, identities)) ==> UniqueBackends(connections, identities)
        invariant clusterId in credentials && StoredFrom(credentials[clusterId], invite, token)
        invariant |added| == k && JoinedWith(connections, identities, answer.value.members, added)
      {
        hide UniqueBackends, JoinedWith, Addable, Grown, Valid;
        var m := answer.value.members[k];
        assert Given(m.fingerprint) ==> Normalise(m.fingerprint.value) in Reports(answer.value.members);
        ghost var c0, i0 := connections, identities;
        var one, _ := AddMember(clusterId, m, token, known);
        if one.Refused? { return None; }
        GrownTwice(start, c0, connections);
        JoinedOne(c0, i0, connections, identities, answer.value.members, added, one);
        added := added + [one];
      }
      results := Some(added);
    }

    /** `sync` with one answer of the cluster. */
    method Sync(clusterId: string, answer: Option<Answer>, described: seq<seq<Member>>, now: real)
      returns (end: SyncEnd)
      requires Valid()
      modifies this
      ensures Valid() && Grown(old(connections), connections)
      ensures old(UniqueBackends(connections, identities)) ==> UniqueBackends(connections, identities)
      ensures old(reported) <= reported
      ensures reported <= old(reported) + (if answer.Some? then Reports(answer.value.members) else {}) +
                          ReportsAll(described)
      ensures end.Completed? ==> answer.Some? && answer.value.clusterId == Some(clusterId) &&
                                 end.adds == |connections| - |old(connections)|
      ensures end.Skipped? ==> connections == old(connections) && identities == old(identities)
      ensures answer.Some? ==>
                SyncOf(old(connections), old(identities), connections, identities, answer.value.members, end)
    {
      if answer.None? || answer.value.clusterId != Some(clusterId) { return Skipped; }
      var token := if clusterId in credentials then Some(credentials[clusterId].token) else None;
      if token.None? { token := Enrol(clusterId, described, now); }
      if token.None? { return Skipped; }
      reported := reported + Reports(answer.value.members);
      var raised, adds, repins, fetched := SyncMembers(clusterId, answer.value.members, token.value);
      end := if raised then Raised else Completed(adds, repins, fetched);
    }

    /** Sync converges: after one that ran through with every certificate fetched, another with
        the same answer adds no connection. It re-pins none exactly when the members that one
        pinned connection stands for agree on their fingerprint. */
    method SyncTwice(clusterId: string, answer: Answer, described: seq<seq<Member>>, now: real, later: real)
      returns (first: SyncEnd, second: SyncEnd, ghost agree: bool, ghost between: Connections)
      requires Valid()
      modifies this
      ensures first.Completed? && first.fetched ==>
                |connections| == |between| && (second.Completed? ==> second.adds == 0)
      ensures first.Completed? && first.fetched && agree ==>
                !second.Raised? && (second.Completed? ==> second.fetched && second.repins == 0) &&
                Agree(connections, identities, answer.members)
      ensures first.Completed? && first.fetched && !agree ==>
                !(second.Completed? && second.fetched && second.repins == 0)
    {
      first := Sync(clusterId, Some(answer), described, now);
      hide Quiet, NoneToAdd, Synced, Agree;
      agree, between := Agree(connections, identities, answer.members), connections;
      if first.Completed? && first.fetched { QuietExactly(connections, identities, answer.members); }
      second := Sync(clusterId, Some(answer), described, later);
    }
  }

  /** Every run: however joins and syncs follow each other, with the enrolling and re-pinning in
      them, each pinned certificate's fingerprint was reported, and no two connections come to
      share a stored backend id. */
  method Run(membership: ClusterMembership, steps: seq<Step>)
    requires membership.Valid()
    modifies membership
    ensures membership.Valid() && Grown(old(membership.connections), membership.connections)
    ensures old(UniqueBackends(membership.connections, membership.identities)) ==>
              UniqueBackends(membership.connections, membership.identities)
    ensures membership.reported <= old(membership.reported) + ToldAll(steps)
  {
    for i := 0 to |steps|
      invariant membership.Valid() && Grown(old(membership.connections), membership.connections)
      invariant old(UniqueBackends(membership.connections, membership.identities)) ==>
                  UniqueBackends(membership.connections, membership.identities)
      invariant membership.reported <= old(membership.reported) + ToldAll(steps[..i])
    {
      assert Init(steps[..i + 1]) == steps[..i];
      match steps[i] {
        case JoinStep(invite, reply, token) => var _ := membership.Join(invite, reply, token);
        case SyncStep(clusterId, answer, described, now) =>
          var _ := membership.Sync(clusterId, answer, described, now);
      }
    }
    assert steps[..|steps|] == steps;
  }

  // What a sync with these members in its answer made of the connections.
  ghost predicate SyncOf(c0: Connections, i0: Identities, c1: Connections, i1: Identities,
                         members: seq<Member>, end: SyncEnd)
  {
    && (end.Completed? && end.fetched ==> Synced(c1, i1, members, |members|))
    && (end.Completed? && end.fetched && end.adds == 0 && end.repins == 0 ==> Quiet(c0, i0, members))
    && (NoneToAdd(c0, i0, members) ==> |c1| == |c0|)
    && (Quiet(c0, i0, members) ==>
          && c1 == c0 && i1 == i0 && !end.Raised?
          && (end.Completed? ==> end.fetched && end.repins == 0))
  }

  // The token of a redeemed invite, and the certificate it was redeemed over.
  ghost predicate StoredFrom(credential: Credential, invite: Invite, token: string) {
    && credential.token == token && credential.entryUrl == invite.entryUrl
    && Presents(credential.entryCertificate, invite.fingerprint)
  }

  // What joining with these results made of the connections.
  ghost predicate JoinedWith(c: Connections, i: Identities, members: seq<Member>, added: seq<Added>)
    requires |added| <= |members|
  {
    forall k :: 0 <= k < |added| && added[k] != NotFetched ==>
      ConnectionFor(c, i, members[k]).Some? || !Addable(members[k])
  }

  lemma {:induction false} JoinedOne(c0: Connections, i0: Identities, c1: Connections, i1: Identities,
                                     members: seq<Member>, added: seq<Added>, one: Added)
    requires |added| < |members| && JoinedWith(c0, i0, members, added)
    requires one.AlreadyConnected? <==> ConnectionFor(c0, i0, members[|added|]).Some?
    requires one.NoAddress? ==> !Addable(members[|added|])
    requires !one.New? ==> c1 == c0 && i1 == i0
    requires one.New? ==> c1 != [] && c1 == c0 + [Last(c1)] && Last(c1).id == one.id && one.id in i1
    requires one.New? ==> i1 == i0[one.id := i1[one.id]] && i1[one.id].backendId == members[|added|].backendId
    requires one.New? ==> forall j :: 0 <= j < |c0| ==> c0[j].id != one.id
    requires !one.Refused?
    ensures JoinedWith(c1, i1, members, added + [one])
  {
    forall k | 0 <= k < |added| + 1 && (added + [one])[k] != NotFetched
      ensures ConnectionFor(c1, i1, members[k]).Some? || !Addable(members[k])
    {
      if one.New? { AppendedFor(c0, Last(c1), i0, i1[one.id], members[k]); }
    }
  }

  // The first member another WebUI can reach.
  function FirstAddable(members: seq<Member>): (found: Option<nat>)
    ensures found.Some? ==> found.value < |members| && Addable(members[found.value])
  {
    if members == [] then None
    else
      var earlier := FirstAddable(Init(members));
      if earlier.Some? then earlier
      else if Addable(Last(members)) then Some(|members| - 1) else None
  }
}
