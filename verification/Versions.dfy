/** The WebUI's own updates (self_update.py): the order of versions, the newest of an index, and
    what is offered. */
module Versions {
  import opened Basics
  import opened Text

  datatype Phase = Alpha | Beta | Candidate

  datatype Pre = Pre(phase: Phase, number: nat)

  // X.Y.Z, perhaps with aN, bN or rcN, and perhaps with .devN.
  datatype Version = Version(release: seq<nat>, pre: Option<Pre>, dev: Option<nat>)

  // ---- version_key ----------------------------------------------------------------------------

  function Sign(a: int, b: int): int {
    if a < b then -1 else if a > b then 1 else 0
  }

  function Then(first: int, second: int): int {
    if first != 0 then first else second
  }

  // How Python compares tuples of numbers.
  function CompareTuples(a: seq<int>, b: seq<int>): int
    decreases |a|
  {
    if a == [] || b == [] then Sign(|a|, |b|)
    else Then(Sign(a[0], b[0]), CompareTuples(a[1..], b[1..]))
  }

  // Zeros up to three components.
  function Padded(release: seq<int>): seq<int>
    decreases 3 - |release|
  {
    if |release| < 3 then Padded(release + [0]) else release
  }

  function PhaseRank(version: Version): int {
    match version.pre
    case Some(Pre(Alpha, _)) => 0
    case Some(Pre(Beta, _)) => 1
    case Some(Pre(Candidate, _)) => 2
    case None => if version.dev.Some? then -1 else 3
  }

  function PhaseNumber(version: Version): int {
    if version.pre.Some? then version.pre.value.number else 0
  }

  // A dev release comes before the same version without one, whose key has infinity there.
  function CompareDev(a: Option<nat>, b: Option<nat>): int {
    if a.Some? && b.Some? then Sign(a.value, b.value) else if a.Some? then -1 else if b.Some? then 1 else 0
  }

  function CompareSuffix(a: Version, b: Version): int {
    Then(Then(Sign(PhaseRank(a), PhaseRank(b)), Sign(PhaseNumber(a), PhaseNumber(b))), CompareDev(a.dev, b.dev))
  }

  /** The order of `version_key`. */
  function CompareKeys(a: Version, b: Version): int {
    Then(CompareTuples(Padded(a.release), Padded(b.release)), CompareSuffix(a, b))
  }

  // ---- PEP 440 --------------------------------------------------------------------------------

  /** Release segments of different lengths are compared as if the shorter one had zeros. */
  function CompareReleases(a: seq<int>, b: seq<int>): int
    decreases |a| + |b|
  {
    if a == [] && b == [] then 0
    else
      Then(Sign(if a == [] then 0 else a[0], if b == [] then 0 else b[0]),
           CompareReleases(if a == [] then a else a[1..], if b == [] then b else b[1..]))
  }

  // Within one release: .devN, aN, bN, rcN and no suffix, in this order ...
  predicate EarlierStage(a: Version, b: Version) {
    match (a.pre, b.pre)
    case (None, None) => a.dev.Some? && b.dev.None?
    case (None, Some(_)) => a.dev.Some?
    case (Some(_), None) => b.dev.None?
    case (Some(x), Some(y)) => EarlierPhase(x.phase, y.phase) || (x.phase == y.phase && x.number < y.number)
  }

  predicate EarlierPhase(a: Phase, b: Phase) {
    (a.Alpha? && !b.Alpha?) || (a.Beta? && b.Candidate?)
  }

  // ... and within one of these, its .devN first, by N.
  predicate EarlierSuffix(a: Version, b: Version) {
    EarlierStage(a, b) || (!EarlierStage(b, a) && EarlierDev(a.dev, b.dev))
  }

  predicate EarlierDev(a: Option<nat>, b: Option<nat>) {
    a.Some? && (b.None? || a.value < b.value)
  }

  /** The order of PEP 440 (section "Summary of permitted suffixes and relative ordering"), of
      versions without epochs, post-releases and local parts. */
  function ComparePep(a: Version, b: Version): int {
    Then(CompareReleases(a.release, b.release),
         if EarlierSuffix(a, b) then -1 else if EarlierSuffix(b, a) then 1 else 0)
  }

  // ---- Where they agree -----------------------------------------------------------------------

  lemma {:induction false} SuffixesAgree(a: Version, b: Version)
    ensures CompareSuffix(a, b) == if EarlierSuffix(a, b) then -1 else if EarlierSuffix(b, a) then 1 else 0
  {
  }

  lemma {:induction false} ZerosCompareEqual(a: seq<int>)
    requires forall i :: 0 <= i < |a| ==> a[i] >= 0
    ensures CompareReleases(a, []) == -CompareReleases([], a) && CompareReleases(a, []) >= 0
  {
    if a != [] { ZerosCompareEqual(a[1..]); }
  }

  // Tuples and releases are compared alike, except that of two equal releases the longer
  // tuple is greater.
  lemma {:induction false} TuplesOrReleases(a: seq<int>, b: seq<int>)
    requires forall i :: 0 <= i < |a| ==> a[i] >= 0
    requires forall i :: 0 <= i < |b| ==> b[i] >= 0
    ensures CompareTuples(a, b) ==
            if CompareReleases(a, b) != 0 then CompareReleases(a, b) else Sign(|a|, |b|)
    decreases |a|
  {
    if a == [] {
      ZerosCompareEqual(b);
      SignOnly(a, b);
    } else if b == [] {
      ZerosCompareEqual(a);
      SignOnly(a, b);
    } else {
      TuplesOrReleases(a[1..], b[1..]);
    }
  }

  lemma {:induction false} SignOnly(a: seq<int>, b: seq<int>)
    ensures -1 <= CompareReleases(a, b) <= 1
    decreases |a| + |b|
  {
    if a != [] || b != [] { SignOnly(if a == [] then a else a[1..], if b == [] then b else b[1..]); }
  }

  lemma {:induction false} ZeroAdded(a: seq<int>, b: seq<int>)
    ensures CompareReleases(a + [0], b) == CompareReleases(a, b)
    ensures CompareReleases(b, a + [0]) == CompareReleases(b, a)
    decreases |a| + |b|
  {
    if a == [] {
      assert a + [0] == [0] && [0][1..] == [];
      if b != [] { assert CompareReleases([], b[1..]) == CompareReleases([0][1..], b[1..]); }
    } else {
      assert (a + [0])[1..] == a[1..] + [0];
      ZeroAdded(a[1..], if b == [] then b else b[1..]);
    }
  }

  lemma {:induction false} PaddingKeepsOrder(a: seq<int>, b: seq<int>)
    ensures CompareReleases(Padded(a), b) == CompareReleases(a, b)
    ensures CompareReleases(b, Padded(a)) == CompareReleases(b, a)
    decreases 3 - |a|
  {
    if |a| < 3 {
      ZeroAdded(a, b);
      PaddingKeepsOrder(a + [0], b);
    }
  }

  lemma {:induction false} PaddedIs(a: seq<int>)
    requires forall i :: 0 <= i < |a| ==> a[i] >= 0
    ensures |Padded(a)| == Max(|a|, 3) && forall i :: 0 <= i < |Padded(a)| ==> Padded(a)[i] >= 0
    decreases 3 - |a|
  {
    if |a| < 3 { PaddedIs(a + [0]); }
  }

  /** The key's order is PEP 440's exactly when the releases differ there, or their keys are
      equally long, or the longer key happens to be the later version. */
  lemma {:induction false} AgreeExactly(a: Version, b: Version)
    ensures CompareKeys(a, b) == ComparePep(a, b) <==>
            || CompareReleases(a.release, b.release) != 0
            || Max(|a.release|, 3) == Max(|b.release|, 3)
            || CompareSuffix(a, b) == Sign(|a.release|, |b.release|)
  {
    var x, y: seq<int> := a.release, b.release;
    PaddedIs(x);
    PaddedIs(y);
    TuplesOrReleases(Padded(x), Padded(y));
    PaddingKeepsOrder(x, Padded(y));
    PaddingKeepsOrder(y, x);
    SuffixesAgree(a, b);
  }

  /** So it is for versions of at most three components. */
  lemma {:induction false} ThreeComponents(a: Version, b: Version)
    requires |a.release| <= 3 && |b.release| <= 3
    ensures CompareKeys(a, b) == ComparePep(a, b)
  {
    AgreeExactly(a, b);
  }

  /** But not for every version: 1.2.3.0 is 1.2.3, and its key is greater. */
  lemma {:induction false} FourComponents()
    ensures var a, b := Version([1, 2, 3], None, None), Version([1, 2, 3, 0], None, None);
            ComparePep(a, b) == 0 && CompareKeys(a, b) == -1
  {
    var x, y: seq<int> := [1, 2, 3], [1, 2, 3, 0];
    assert x[1..] == [2, 3] && [2, 3][1..] == [3] && [3][1..] == [];
    assert y[1..] == [2, 3, 0] && [2, 3, 0][1..] == [3, 0] && [3, 0][1..] == [0] && [0][1..] == [];
    assert CompareReleases([], [0]) == 0;
    assert CompareReleases([3], [3, 0]) == 0 && CompareReleases([2, 3], [2, 3, 0]) == 0;
    assert CompareTuples([], [0]) == -1;
    assert CompareTuples([3], [3, 0]) == -1 && CompareTuples([2, 3], [2, 3, 0]) == -1;
  }

  // ---- The order is one -----------------------------------------------------------------------

  lemma {:induction false} TuplesTransitive(a: seq<int>, b: seq<int>, c: seq<int>)
    requires CompareTuples(a, b) <= 0 && CompareTuples(b, c) <= 0
    ensures CompareTuples(a, c) <= 0
    ensures CompareTuples(a, c) == 0 ==> CompareTuples(a, b) == 0 && CompareTuples(b, c) == 0
    decreases |a|
  {
    if a != [] && b != [] && c != [] && a[0] == b[0] == c[0] { TuplesTransitive(a[1..], b[1..], c[1..]); }
  }

  lemma {:induction false} TuplesReversed(a: seq<int>, b: seq<int>)
    ensures CompareTuples(b, a) == -CompareTuples(a, b)
    decreases |a|
  {
    if a != [] && b != [] { TuplesReversed(a[1..], b[1..]); }
  }

  lemma {:induction false} SuffixTransitive(a: Version, b: Version, c: Version)
    requires CompareSuffix(a, b) <= 0 && CompareSuffix(b, c) <= 0
    ensures CompareSuffix(a, c) <= 0
    ensures CompareSuffix(a, c) == 0 ==> CompareSuffix(a, b) == 0 && CompareSuffix(b, c) == 0
  {
  }

  lemma {:induction false} KeysTransitive(a: Version, b: Version, c: Version)
    requires CompareKeys(a, b) <= 0 && CompareKeys(b, c) <= 0
    ensures CompareKeys(a, c) <= 0
  {
    TuplesTransitive(Padded(a.release), Padded(b.release), Padded(c.release));
    if CompareTuples(Padded(a.release), Padded(c.release)) == 0 { SuffixTransitive(a, b, c); }
  }

  lemma {:induction false} KeysReversed(a: Version, b: Version)
    ensures CompareKeys(b, a) == -CompareKeys(a, b)
  {
    TuplesReversed(Padded(a.release), Padded(b.release));
  }

  /** `version_key` orders versions totally: any two compare, one way and the other, and the
      order is transitive. */
  lemma {:induction false} KeysOrdered(a: Version, b: Version, c: Version)
    ensures CompareKeys(a, b) <= 0 || CompareKeys(b, a) <= 0
    ensures CompareKeys(b, a) == -CompareKeys(a, b) && CompareKeys(a, a) == 0
    ensures CompareKeys(a, b) <= 0 && CompareKeys(b, c) <= 0 ==> CompareKeys(a, c) <= 0
  {
    KeysReversed(a, b);
    KeysReversed(a, a);
    if CompareKeys(a, b) <= 0 && CompareKeys(b, c) <= 0 { KeysTransitive(a, b, c); }
  }

  // ---- newest -----------------------------------------------------------------------------------

  datatype Channel = Release | Edge

  // `is_prerelease`
  predicate Prerelease(version: Version) {
    PhaseRank(version) != 3 || version.dev.Some?
  }

  // A version of the index, perhaps none that the key understands.
  function Candidates(versions: seq<Option<Version>>, channel: Channel): seq<Version> {
    if versions == [] then []
    else
      Candidates(Init(versions), channel) +
      if Last(versions).Some? && (channel.Edge? || !Prerelease(Last(versions).value)) then [Last(versions).value]
      else []
  }

  // `max`: the first of the greatest.
  function Greatest(versions: seq<Version>): Option<Version> {
    if versions == [] then None
    else
      match Greatest(Init(versions))
      case None => Some(Last(versions))
      case Some(best) => Some(if CompareKeys(Last(versions), best) > 0 then Last(versions) else best)
  }

  function Newest(versions: seq<Option<Version>>, channel: Channel): Option<Version> {
    Greatest(Candidates(versions, channel))
  }

  lemma {:induction false} CandidatesAre(versions: seq<Option<Version>>, channel: Channel)
    ensures forall v :: v in Candidates(versions, channel) <==>
                        Some(v) in versions && (channel.Edge? || !Prerelease(v))
    decreases |versions|
  {
    if versions != [] {
      CandidatesAre(Init(versions), channel);
      assert versions == Init(versions) + [Last(versions)];
    }
  }

  lemma {:induction false} GreatestIs(versions: seq<Version>)
    ensures Greatest(versions).None? <==> versions == []
    ensures versions != [] ==>
              Greatest(versions).value in versions &&
              forall v :: v in versions ==> CompareKeys(v, Greatest(versions).value) <= 0
    decreases |versions|
  {
    if versions != [] {
      GreatestIs(Init(versions));
      assert versions == Init(versions) + [Last(versions)];
      var best := Greatest(versions).value;
      KeysReversed(Last(versions), Last(versions));
      if Init(versions) != [] {
        var before := Greatest(Init(versions)).value;
        KeysReversed(Last(versions), before);
        KeysReversed(before, before);
        forall v | v in Init(versions) ensures CompareKeys(v, best) <= 0 {
          KeysTransitive(v, before, best);
        }
      }
    }
  }

  /** The newest is a maximum of the channel's versions; there is none only when it has none. */
  lemma {:induction false} NewestIs(versions: seq<Option<Version>>, channel: Channel)
    ensures Newest(versions, channel).None? <==>
            forall v :: Some(v) in versions ==> channel.Release? && Prerelease(v)
    ensures Newest(versions, channel).Some? ==>
              var best := Newest(versions, channel).value;
              && Some(best) in versions && (channel.Edge? || !Prerelease(best))
              && forall v :: Some(v) in versions && (channel.Edge? || !Prerelease(v)) ==> CompareKeys(v, best) <= 0
  {
    CandidatesAre(versions, channel);
    GreatestIs(Candidates(versions, channel));
    if Candidates(versions, channel) != [] { assert Candidates(versions, channel)[0] in Candidates(versions, channel); }
  }

  // ---- status ---------------------------------------------------------------------------------

  // `SelfUpdater.channel`
  function ChannelFor(configured: Option<Channel>, current: Option<Version>): Channel {
    if configured.Some? then configured.value
    else if current.Some? && Prerelease(current.value) then Edge else Release
  }

  /** The version offered over the current one (None when its version cannot be read). */
  function Offered(versions: seq<Option<Version>>, configured: Option<Channel>, current: Option<Version>)
    : Option<Version>
  {
    var latest := Newest(versions, ChannelFor(configured, current));
    if latest.Some? && (current.None? || CompareKeys(latest.value, current.value) > 0) then latest else None
  }

  /** Over a readable version exactly the strictly newer ones of its channel are worth an
      offer, and the newest of them is made. */
  lemma {:induction false} OfferedIs(versions: seq<Option<Version>>, configured: Option<Channel>, current: Version)
    ensures var channel, offered := ChannelFor(configured, Some(current)), Offered(versions, configured, Some(current));
            && (offered.Some? <==>
                  exists v :: Some(v) in versions && (channel.Edge? || !Prerelease(v)) && CompareKeys(v, current) > 0)
            && (offered.Some? ==> CompareKeys(offered.value, current) > 0)
  {
    var channel := ChannelFor(configured, Some(current));
    NewestIs(versions, channel);
    forall v | Some(v) in versions && (channel.Edge? || !Prerelease(v)) && CompareKeys(v, current) > 0
      ensures Offered(versions, configured, Some(current)).Some?
    {
      var best := Newest(versions, channel).value;
      if CompareKeys(best, current) <= 0 { KeysTransitive(v, best, current); }
    }
  }

  /** Once the offered version runs, the same index offers nothing: not even when it moves the
      updater from the edge channel to the release channel. */
  lemma {:induction false} OfferedOnce(versions: seq<Option<Version>>, configured: Option<Channel>,
                                       current: Option<Version>)
    requires Offered(versions, configured, current).Some?
    ensures Offered(versions, configured, Offered(versions, configured, current)).None?
  {
    var offered := Offered(versions, configured, current);
    var before, after := ChannelFor(configured, current), ChannelFor(configured, offered);
    NewestIs(versions, before);
    NewestIs(versions, after);
    assert after.Edge? ==> before.Edge?;
  }
}
