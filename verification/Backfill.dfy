/** The mention backfill (backfill_content_mentions.py): paging over the content rows by id,
    counting the mentions that are missing and, when told to apply, inserting them. */
module Backfill {
  import opened Basics
  import opened Text

  datatype Candidate = Candidate(raw: string, normalized: string, kind: string)

  datatype Mention = Mention(contentId: int, raw: string, normalized: string, kind: string, userId: Option<int>)

  datatype Key = Key(contentId: int, normalized: string, kind: string)

  datatype Row = Row(id: int, text: Option<string>)

  // What is taken as given of an archive and its content.
  datatype Archive = Archive(
    site: string,
    matches: string -> bool,                   // the query's text conditions
    candidates: string -> seq<Candidate>,      // the links and handles of a text, sorted
    casefold: string -> string,
    platform: string -> Option<string>,        // `_link_platform`
    userOf: string -> Option<int>)             // the user a handle or profile id resolves to

  const AMBIGUOUS := "ambiguous_link"
  const CROSS_PLATFORM := "cross_platform_profile_link"

  predicate Excluded(kind: string) {
    "excluded_" <= kind
  }

  // ---- extract_mentions ---------------------------------------------------------------------

  // What makes two candidates one mention; excluded links only by their own text.
  function Signature(archive: Archive, candidate: Candidate): (string, string, string) {
    (candidate.normalized, candidate.kind, if Excluded(candidate.kind) then archive.casefold(candidate.raw) else "")
  }

  function Signatures(archive: Archive, candidates: seq<Candidate>): set<(string, string, string)> {
    set candidate | candidate in candidates :: Signature(archive, candidate)
  }

  // Each candidate that no earlier one stands for.
  function FirstOfEach(archive: Archive, candidates: seq<Candidate>): seq<Candidate> {
    if candidates == [] then []
    else
      FirstOfEach(archive, Init(candidates)) +
      if Signature(archive, Last(candidates)) in Signatures(archive, Init(candidates)) then [] else [Last(candidates)]
  }

  ghost predicate DistinctSignatures(archive: Archive, candidates: seq<Candidate>) {
    forall i, j :: 0 <= i < j < |candidates| ==>
      Signature(archive, candidates[i]) != Signature(archive, candidates[j])
  }

  lemma {:induction false} SignaturesSnoc(archive: Archive, candidates: seq<Candidate>)
    requires candidates != []
    ensures Signatures(archive, candidates) ==
            Signatures(archive, Init(candidates)) + {Signature(archive, Last(candidates))}
  {
    assert candidates == Init(candidates) + [Last(candidates)];
  }

  /** Deduplication loses no signature and leaves none twice. */
  lemma {:induction false} EachOnce(archive: Archive, candidates: seq<Candidate>)
    ensures Signatures(archive, FirstOfEach(archive, candidates)) == Signatures(archive, candidates)
    ensures DistinctSignatures(archive, FirstOfEach(archive, candidates))
    decreases |candidates|
  {
    if candidates != [] {
      EachOnce(archive, Init(candidates));
      SignaturesSnoc(archive, candidates);
      var first := FirstOfEach(archive, Init(candidates));
      var all := FirstOfEach(archive, candidates);
      if all != first {
        assert Init(all) == first && Last(all) == Last(candidates);
        SignaturesSnoc(archive, all);
        forall i | 0 <= i < |first| ensures Signature(archive, all[i]) != Signature(archive, Last(all)) {
          assert all[i] == first[i] && first[i] in first;
        }
      }
    }
  }

  /** The loop of `extract_mentions`. */
  method Extract(archive: Archive, candidates: seq<Candidate>) returns (found: seq<Candidate>)
    ensures found == FirstOfEach(archive, candidates)
  {
    found := [];
    var seen: set<(string, string, string)> := {};
    for i := 0 to |candidates|
      invariant found == FirstOfEach(archive, candidates[..i]) && seen == Signatures(archive, candidates[..i])
    {
      assert Init(candidates[..i + 1]) == candidates[..i] && Last(candidates[..i + 1]) == candidates[i];
      SignaturesSnoc(archive, candidates[..i + 1]);
      var signature := Signature(archive, candidates[i]);
      if signature !in seen {
        seen := seen + {signature};
        found := found + [candidates[i]];
      }
    }
    assert candidates[..|candidates|] == candidates;
  }

  // ---- The mentions of a row ----------------------------------------------------------------

  // `_mention_kind_for_archive`
  function KindFor(archive: Archive, raw: string, kind: string): string {
    if kind != AMBIGUOUS && kind != "handle" && !Excluded(kind) && archive.platform(raw).Some?
       && archive.platform(raw).value != archive.site
    then CROSS_PLATFORM else kind
  }

  function MentionOf(archive: Archive, id: int, candidate: Candidate): Mention {
    var kind := KindFor(archive, candidate.raw, candidate.kind);
    Mention(id, candidate.raw, candidate.normalized, kind,
            if kind == CROSS_PLATFORM then None else archive.userOf(candidate.normalized))
  }

  function KeyOf(mention: Mention): Key {
    Key(mention.contentId, mention.normalized, mention.kind)
  }

  function Keys(mentions: seq<Mention>): set<Key> {
    set mention | mention in mentions :: KeyOf(mention)
  }

  function Mentions(archive: Archive, row: Row): (mentions: seq<Mention>)
    ensures forall mention :: mention in mentions ==> mention.contentId == row.id
  {
    var found := if row.text.Some? then FirstOfEach(archive, archive.candidates(row.text.value)) else [];
    seq(|found|, i requires 0 <= i < |found| => MentionOf(archive, row.id, found[i]))
  }

  predicate Resolvable(mention: Mention) {
    mention.kind != AMBIGUOUS && !Excluded(mention.kind)
  }

  // The resolvable mentions whose keys are not present yet.
  function Wanted(mentions: seq<Mention>, present: set<Key>): (wanted: seq<Mention>)
    ensures forall mention :: mention in wanted ==> mention in mentions && KeyOf(mention) !in present
  {
    if mentions == [] then []
    else
      Wanted(Init(mentions), present) +
      if Resolvable(Last(mentions)) && KeyOf(Last(mentions)) !in present then [Last(mentions)] else []
  }

  function Missing(archive: Archive, rows: seq<Row>, present: set<Key>): seq<Mention> {
    if rows == [] then []
    else Missing(archive, Init(rows), present) + Wanted(Mentions(archive, Last(rows)), present)
  }

  function ResolvableCount(archive: Archive, rows: seq<Row>): nat {
    if rows == [] then 0
    else ResolvableCount(archive, Init(rows)) + |Wanted(Mentions(archive, Last(rows)), {})|
  }

  function ResolvedCount(mentions: seq<Mention>): nat {
    if mentions == [] then 0
    else ResolvedCount(Init(mentions)) + if Last(mentions).userId.Some? then 1 else 0
  }

  lemma {:induction false} MissingAppend(archive: Archive, a: seq<Row>, b: seq<Row>, present: set<Key>)
    ensures Missing(archive, a + b, present) == Missing(archive, a, present) + Missing(archive, b, present)
    decreases |b|
  {
    if b == [] {
      assert a + b == a;
    } else {
      assert Init(a + b) == a + Init(b) && Last(a + b) == Last(b);
      MissingAppend(archive, a, Init(b), present);
      Associates(Missing(archive, a, present), Missing(archive, Init(b), present),
                 Wanted(Mentions(archive, Last(b)), present));
    }
  }

  lemma {:induction false} Associates(a: seq<Mention>, b: seq<Mention>, c: seq<Mention>)
    ensures (a + b) + c == a + (b + c)
  {
  }

  lemma {:induction false} CountAppend(archive: Archive, a: seq<Row>, b: seq<Row>)
    ensures ResolvableCount(archive, a + b) == ResolvableCount(archive, a) + ResolvableCount(archive, b)
    decreases |b|
  {
    if b == [] {
      assert a + b == a;
    } else {
      assert Init(a + b) == a + Init(b) && Last(a + b) == Last(b);
      CountAppend(archive, a, Init(b));
    }
  }

  lemma {:induction false} ResolvedAppend(a: seq<Mention>, b: seq<Mention>)
    ensures ResolvedCount(a + b) == ResolvedCount(a) + ResolvedCount(b)
    decreases |b|
  {
    if b == [] {
      assert a + b == a;
    } else {
      assert Init(a + b) == a + Init(b) && Last(a + b) == Last(b);
      ResolvedAppend(a, Init(b));
    }
  }

  // ---- What an insertion changes ------------------------------------------------------------

  lemma {:induction false} WantedSame(mentions: seq<Mention>, present: set<Key>, others: set<Key>)
    requires forall mention :: mention in mentions ==> (KeyOf(mention) in present <==> KeyOf(mention) in others)
    ensures Wanted(mentions, present) == Wanted(mentions, others)
    decreases |mentions|
  {
    if mentions != [] {
      assert Last(mentions) in mentions;
      WantedSame(Init(mentions), present, others);
    }
  }

  lemma {:induction false} WantedNone(mentions: seq<Mention>, present: set<Key>)
    requires forall mention :: mention in mentions && Resolvable(mention) ==> KeyOf(mention) in present
    ensures Wanted(mentions, present) == []
    decreases |mentions|
  {
    if mentions != [] {
      assert Last(mentions) in mentions;
      WantedNone(Init(mentions), present);
    }
  }

  lemma {:induction false} WantedAll(mentions: seq<Mention>, present: set<Key>, mention: Mention)
    requires mention in mentions && Resolvable(mention) && KeyOf(mention) !in present
    ensures mention in Wanted(mentions, present)
    decreases |mentions|
  {
    if mention != Last(mentions) {
      assert mentions == Init(mentions) + [Last(mentions)];
      WantedAll(Init(mentions), present, mention);
    }
  }

  function Ids(rows: seq<Row>): set<int> {
    set row | row in rows :: row.id
  }

  // The keys of the mentions of these contents.
  function KeysAt(mentions: seq<Mention>, contentIds: set<int>): set<Key> {
    set mention | mention in mentions && mention.contentId in contentIds :: KeyOf(mention)
  }

  // Two sets of keys that agree on these rows miss the same mentions of them.
  lemma {:induction false} MissingSame(archive: Archive, rows: seq<Row>, present: set<Key>, others: set<Key>)
    requires forall key: Key :: key.contentId in Ids(rows) ==> (key in present <==> key in others)
    ensures Missing(archive, rows, present) == Missing(archive, rows, others)
    decreases |rows|
  {
    if rows != [] {
      assert Last(rows) in rows && forall row :: row in Init(rows) ==> row in rows;
      MissingSame(archive, Init(rows), present, others);
      forall mention | mention in Mentions(archive, Last(rows))
        ensures KeyOf(mention) in present <==> KeyOf(mention) in others
      {
        assert KeyOf(mention).contentId == Last(rows).id;
      }
      WantedSame(Mentions(archive, Last(rows)), present, others);
    }
  }

  lemma {:induction false} MissingAt(archive: Archive, rows: seq<Row>, table: seq<Mention>)
    ensures Missing(archive, rows, KeysAt(table, Ids(rows))) == Missing(archive, rows, Keys(table))
  {
    MissingSame(archive, rows, KeysAt(table, Ids(rows)), Keys(table));
  }

  lemma {:induction false} MissingIds(archive: Archive, rows: seq<Row>, present: set<Key>)
    ensures forall key :: key in Keys(Missing(archive, rows, present)) ==> key.contentId in Ids(rows)
    decreases |rows|
  {
    if rows != [] {
      MissingIds(archive, Init(rows), present);
      assert Last(rows) in rows && forall row :: row in Init(rows) ==> row in rows;
    }
  }

  lemma {:induction false} KeysAppend(a: seq<Mention>, b: seq<Mention>)
    ensures Keys(a + b) == Keys(a) + Keys(b)
  {
    forall key | key in Keys(a) + Keys(b) ensures key in Keys(a + b) {
      var mention :| (mention in a || mention in b) && KeyOf(mention) == key;
      assert mention in a + b;
    }
  }

  // The table after a whole run over these rows.
  function Filled(archive: Archive, rows: seq<Row>, table: seq<Mention>): seq<Mention> {
    table + Missing(archive, rows, Keys(table))
  }

  // What the earlier rows' insertions leave to insert for the later ones.
  lemma {:induction false} EarlierApart(archive: Archive, earlier: seq<Row>, later: seq<Row>, table: seq<Mention>)
    requires Ids(earlier) !! Ids(later)
    ensures Missing(archive, later, Keys(Filled(archive, earlier, table))) == Missing(archive, later, Keys(table))
  {
    var inserted := Missing(archive, earlier, Keys(table));
    MissingIds(archive, earlier, Keys(table));
    KeysAppend(table, inserted);
    MissingSame(archive, later, Keys(table + inserted), Keys(table));
  }

  // A set of keys that holds what is missing leaves nothing missing.
  lemma {:induction false} NothingMissing(archive: Archive, rows: seq<Row>, table: set<Key>, present: set<Key>)
    requires table <= present && Keys(Missing(archive, rows, table)) <= present
    ensures Missing(archive, rows, present) == []
    decreases |rows|
  {
    if rows != [] {
      var mentions := Mentions(archive, Last(rows));
      var front := Missing(archive, Init(rows), table);
      KeysAppend(front, Wanted(mentions, table));
      NothingMissing(archive, Init(rows), table, present);
      forall mention | mention in mentions && Resolvable(mention) ensures KeyOf(mention) in present {
        if KeyOf(mention) !in table { WantedAll(mentions, table, mention); }
      }
      WantedNone(mentions, present);
    }
  }

  /** A second full run finds nothing to insert. */
  lemma {:induction false} SecondRunEmpty(archive: Archive, rows: seq<Row>, table: seq<Mention>)
    ensures Missing(archive, rows, Keys(Filled(archive, rows, table))) == []
  {
    var inserted := Missing(archive, rows, Keys(table));
    KeysAppend(table, inserted);
    NothingMissing(archive, rows, Keys(table), Keys(table + inserted));
  }

  ghost predicate Distinct(rows: seq<Row>) {
    forall i, j :: 0 <= i < j < |rows| ==> rows[i].id < rows[j].id
  }

  lemma {:induction false} CutApart(rows: seq<Row>, n: nat)
    requires n <= |rows| && Distinct(rows)
    ensures Ids(rows[..n]) !! Ids(rows[n..])
  {
    forall a, b | a in rows[..n] && b in rows[n..] ensures a.id != b.id {
      var i, j :| 0 <= i < n && 0 <= j < |rows| - n && rows[..n][i] == a && rows[n..][j] == b;
      assert rows[i].id < rows[n + j].id;
    }
  }

  lemma {:induction false} FilledAppend(archive: Archive, earlier: seq<Row>, later: seq<Row>, table: seq<Mention>)
    ensures Filled(archive, earlier + later, table) ==
            Filled(archive, earlier, table) + Missing(archive, later, Keys(table))
  {
    MissingAppend(archive, earlier, later, Keys(table));
    Associates(table, Missing(archive, earlier, Keys(table)), Missing(archive, later, Keys(table)));
  }

  lemma {:induction false} MissingLater(archive: Archive, earlier: seq<Row>, later: seq<Row>, stopped: set<Key>)
    requires Missing(archive, earlier, stopped) == []
    ensures Missing(archive, earlier + later, stopped) == Missing(archive, later, stopped)
  {
    MissingAppend(archive, earlier, later, stopped);
  }

  /** A run stopped after its first n rows and run again leaves the table of one whole run. */
  lemma {:induction false} StoppedAndRunAgain(archive: Archive, rows: seq<Row>, n: nat, table: seq<Mention>)
    requires n <= |rows| && Distinct(rows)
    ensures Filled(archive, rows, Filled(archive, rows[..n], table)) == Filled(archive, rows, table)
  {
    CutApart(rows, n);
    RunAgain(archive, rows[..n], rows[n..], table);
    assert rows == rows[..n] + rows[n..];
  }

  lemma {:induction false} RunAgain(archive: Archive, earlier: seq<Row>, later: seq<Row>, table: seq<Mention>)
    requires Ids(earlier) !! Ids(later)
    ensures Filled(archive, earlier + later, Filled(archive, earlier, table)) == Filled(archive, earlier + later, table)
  {
    SecondRunEmpty(archive, earlier, table);
    EarlierApart(archive, earlier, later, table);
    MissingLater(archive, earlier, later, Keys(Filled(archive, earlier, table)));
    FilledAppend(archive, earlier, later, table);
  }

  // ---- Paging -------------------------------------------------------------------------------

  function Matching(archive: Archive, rows: seq<Row>): seq<Row> {
    if rows == [] then []
    else
      Matching(archive, Init(rows)) +
      if Last(rows).text.Some? && archive.matches(Last(rows).text.value) then [Last(rows)] else []
  }

  function After(rows: seq<Row>, lastId: int): seq<Row> {
    if rows == [] then []
    else if rows[0].id > lastId then [rows[0]] + After(rows[1..], lastId)
    else After(rows[1..], lastId)
  }

  function Take(rows: seq<Row>, size: nat): seq<Row> {
    if |rows| <= size then rows else rows[..size]
  }

  // One page: matching rows after an id, in the order of their ids, up to a size.
  function Page(archive: Archive, rows: seq<Row>, lastId: int, size: nat): seq<Row> {
    Take(After(Matching(archive, rows), lastId), size)
  }

  datatype Limit = Unlimited | AtMost(size: nat)

  /** The rows a run is to read: those that match, up to the limit. Ids start at 1, so a row
      with an id below that would never be read. */
  function Target(archive: Archive, rows: seq<Row>, limit: Limit): seq<Row> {
    var all := After(Matching(archive, rows), 0);
    if limit.AtMost? then Take(all, limit.size) else all
  }

  lemma {:induction false} MatchingSorted(archive: Archive, rows: seq<Row>)
    requires Distinct(rows)
    ensures Distinct(Matching(archive, rows))
    ensures forall row :: row in Matching(archive, rows) <==>
                          row in rows && row.text.Some? && archive.matches(row.text.value)
    decreases |rows|
  {
    if rows != [] {
      MatchingSorted(archive, Init(rows));
      assert rows == Init(rows) + [Last(rows)];
      var front := Matching(archive, Init(rows));
      forall i | 0 <= i < |front| ensures front[i].id < Last(rows).id {
        assert front[i] in Init(rows);
      }
    }
  }

  lemma {:induction false} AfterAll(rows: seq<Row>, lastId: int)
    requires Distinct(rows) && (rows == [] || rows[0].id > lastId)
    ensures After(rows, lastId) == rows
  {
    if rows != [] { AfterAll(rows[1..], lastId); }
  }

  lemma {:induction false} AfterRows(rows: seq<Row>, lastId: int)
    requires Distinct(rows)
    ensures Distinct(After(rows, lastId))
    ensures forall row :: row in After(rows, lastId) <==> row in rows && row.id > lastId
  {
    if rows != [] {
      AfterRows(rows[1..], lastId);
      assert rows == [rows[0]] + rows[1..];
      forall row | row in After(rows[1..], lastId) ensures rows[0].id < row.id {
        assert row in rows[1..];
      }
    }
  }

  // The rows after the n-th of those after an id.
  lemma {:induction false} AfterNth(rows: seq<Row>, lastId: int, n: nat)
    requires Distinct(rows) && 0 < n <= |After(rows, lastId)|
    ensures After(rows, After(rows, lastId)[n - 1].id) == After(rows, lastId)[n..]
  {
    var all := After(rows, lastId);
    AfterRows(rows, lastId);
    assert all[n - 1] in all;
    AfterTwice(rows, lastId, all[n - 1].id);
    AfterCut(all, n);
  }

  lemma {:induction false} AfterTwice(rows: seq<Row>, lastId: int, laterId: int)
    requires lastId <= laterId
    ensures After(After(rows, lastId), laterId) == After(rows, laterId)
  {
    if rows != [] {
      AfterTwice(rows[1..], lastId, laterId);
      if rows[0].id > lastId {
        assert After(rows, lastId)[1..] == After(rows[1..], lastId);
      }
    }
  }

  lemma {:induction false} AfterCut(rows: seq<Row>, n: nat)
    requires Distinct(rows) && 0 < n <= |rows|
    ensures After(rows, rows[n - 1].id) == rows[n..]
  {
    AfterCutFrom(rows, rows[n - 1].id, n);
  }

  lemma {:induction false} AfterCutFrom(rows: seq<Row>, lastId: int, n: nat)
    requires Distinct(rows) && n <= |rows|
    requires forall i :: 0 <= i < n ==> rows[i].id <= lastId
    requires n < |rows| ==> rows[n].id > lastId
    ensures After(rows, lastId) == rows[n..]
    decreases n
  {
    if n == 0 {
      AfterAll(rows, lastId);
    } else {
      AfterCutFrom(rows[1..], lastId, n - 1);
      assert rows[1..][n - 1..] == rows[n..];
    }
  }

  // ---- The run ------------------------------------------------------------------------------

  class Session {
    var mentions: seq<Mention>

    // `_existing_keys`
    method ExistingKeys(contentIds: set<int>) returns (existing: set<Key>)
      ensures existing == KeysAt(mentions, contentIds)
    {
      existing := KeysAt(mentions, contentIds);
    }
  }

  class Stats {
    var rowsSeen: nat
    var handlesFound: nat
    var handlesResolved: nat
    var inserted: nat
  }

  function Now(session: Session, stats: Stats): State
    reads session, stats
  {
    State(session.mentions, stats.rowsSeen, stats.handlesFound, stats.handlesResolved, stats.inserted)
  }

  // The table of mentions and the counts, as a value.
  datatype State = State(mentions: seq<Mention>, rowsSeen: nat, handlesFound: nat, handlesResolved: nat,
                         inserted: nat)

  /** Where reading these rows brings them. */
  function Backfilled(archive: Archive, rows: seq<Row>, apply: bool, before: State): State {
    var missing := Missing(archive, rows, Keys(before.mentions));
    State(if apply then Filled(archive, rows, before.mentions) else before.mentions,
          before.rowsSeen + |rows|, before.handlesFound + ResolvableCount(archive, rows),
          before.handlesResolved + ResolvedCount(missing), before.inserted + |missing|)
  }

  lemma {:induction false} BackfilledNext(archive: Archive, earlier: seq<Row>, later: seq<Row>, apply: bool,
                                          before: State)
    requires Ids(earlier) !! Ids(later)
    ensures Backfilled(archive, later, apply, Backfilled(archive, earlier, apply, before)) ==
            Backfilled(archive, earlier + later, apply, before)
  {
    MissingAppend(archive, earlier, later, Keys(before.mentions));
    CountAppend(archive, earlier, later);
    ResolvedAppend(Missing(archive, earlier, Keys(before.mentions)), Missing(archive, later, Keys(before.mentions)));
    EarlierApart(archive, earlier, later, before.mentions);
    FilledAppend(archive, earlier, later, before.mentions);
  }

  /** One page of a run: the mentions missing from the table are counted, and inserted when
      applying. */
  method BackfillPage(archive: Archive, page: seq<Row>, session: Session, apply: bool, stats: Stats)
    modifies session, stats
    ensures Now(session, stats) == Backfilled(archive, page, apply, old(Now(session, stats)))
  {
    stats.rowsSeen := stats.rowsSeen + |page|;
    var existing := session.ExistingKeys(Ids(page));
    MissingAt(archive, page, session.mentions);
    var pending := MissingMentions(archive, page, existing, stats);
    if apply { session.mentions := session.mentions + pending; }
  }

  method MissingMentions(archive: Archive, page: seq<Row>, existing: set<Key>, stats: Stats)
    returns (pending: seq<Mention>)
    modifies stats
    ensures pending == Missing(archive, page, existing) && stats.rowsSeen == old(stats.rowsSeen)
    ensures stats.handlesFound == old(stats.handlesFound) + ResolvableCount(archive, page)
    ensures stats.inserted == old(stats.inserted) + |pending|
    ensures stats.handlesResolved == old(stats.handlesResolved) + ResolvedCount(pending)
  {
    pending := [];
    for i := 0 to |page|
      invariant pending == Missing(archive, page[..i], existing) && stats.rowsSeen == old(stats.rowsSeen)
      invariant stats.handlesFound == old(stats.handlesFound) + ResolvableCount(archive, page[..i])
      invariant stats.inserted == old(stats.inserted) + |pending|
      invariant stats.handlesResolved == old(stats.handlesResolved) + ResolvedCount(pending)
    {
      assert Init(page[..i + 1]) == page[..i] && Last(page[..i + 1]) == page[i];
      var added := RowMentions(Mentions(archive, page[i]), existing, stats);
      ResolvedAppend(pending, added);
      pending := pending + added;
    }
    assert page[..|page|] == page;
  }

  // The mentions of one row.
  method RowMentions(mentions: seq<Mention>, existing: set<Key>, stats: Stats) returns (added: seq<Mention>)
    modifies stats
    ensures added == Wanted(mentions, existing) && stats.rowsSeen == old(stats.rowsSeen)
    ensures stats.handlesFound == old(stats.handlesFound) + |Wanted(mentions, {})|
    ensures stats.inserted == old(stats.inserted) + |added|
    ensures stats.handlesResolved == old(stats.handlesResolved) + ResolvedCount(added)
  {
    added := [];
    for j := 0 to |mentions|
      invariant added == Wanted(mentions[..j], existing) && stats.rowsSeen == old(stats.rowsSeen)
      invariant stats.handlesFound == old(stats.handlesFound) + |Wanted(mentions[..j], {})|
      invariant stats.inserted == old(stats.inserted) + |added|
      invariant stats.handlesResolved == old(stats.handlesResolved) + ResolvedCount(added)
    {
      var mention := mentions[j];
      assert Init(mentions[..j + 1]) == mentions[..j] && Last(mentions[..j + 1]) == mention;
      if Resolvable(mention) {
        stats.handlesFound := stats.handlesFound + 1;
        if KeyOf(mention) !in existing {
          if mention.userId.Some? { stats.handlesResolved := stats.handlesResolved + 1; }
          stats.inserted := stats.inserted + 1;
          assert Init(added + [mention]) == added && Last(added + [mention]) == mention;
          added := added + [mention];
        }
      }
    }
    assert mentions[..|mentions|] == mentions;
  }

  // Where a run stands between two pages: the last id read, and the rows left of the limit.
  datatype Cursor = Cursor(lastId: int, remaining: Limit)

  function CursorAt(target: seq<Row>, limit: Limit, n: nat): Cursor
    requires n <= |target| && (limit.AtMost? ==> n <= limit.size)
  {
    Cursor(if n == 0 then 0 else target[n - 1].id, if limit.AtMost? then AtMost(limit.size - n) else Unlimited)
  }

  /** The page a run reads after its first n target rows is the target's next rows. */
  lemma {:induction false} PageNext(archive: Archive, rows: seq<Row>, limit: Limit, n: nat, batchSize: nat)
    requires Distinct(rows) && n <= |Target(archive, rows, limit)| && batchSize >= 1
    requires limit.AtMost? ==> n < limit.size
    ensures var target := Target(archive, rows, limit);
            var page := Page(archive, rows, CursorAt(target, limit, n).lastId,
                             if limit.AtMost? then Min(batchSize, limit.size - n) else batchSize);
            && n + |page| <= |target| && page == target[n..n + |page|]
            && (page == [] ==> n == |target|) && (limit.AtMost? ==> n + |page| <= limit.size)
  {
    PageAt(archive, rows, n);
    TakeNext(After(Matching(archive, rows), 0), limit, n, batchSize);
  }

  lemma {:induction false} PageAt(archive: Archive, rows: seq<Row>, n: nat)
    requires Distinct(rows) && n <= |After(Matching(archive, rows), 0)|
    ensures var all := After(Matching(archive, rows), 0);
            After(Matching(archive, rows), if n == 0 then 0 else all[n - 1].id) == all[n..]
  {
    MatchingSorted(archive, rows);
    if n > 0 { AfterNth(Matching(archive, rows), 0, n); }
  }

  // A page from the n-th row on, of the rows up to a limit.
  lemma {:induction false} TakeNext(all: seq<Row>, limit: Limit, n: nat, batchSize: nat)
    requires batchSize >= 1 && n <= |all| && (limit.AtMost? ==> n < limit.size)
    ensures var target := if limit.AtMost? then Take(all, limit.size) else all;
            && (n > 0 ==> target[n - 1] == all[n - 1])
    ensures var target := if limit.AtMost? then Take(all, limit.size) else all;
            var page := Take(all[n..], if limit.AtMost? then Min(batchSize, limit.size - n) else batchSize);
            && n + |page| <= |target| && page == target[n..n + |page|]
            && (page == [] ==> n == |target|) && (limit.AtMost? ==> n + |page| <= limit.size)
  {
    var size := if limit.AtMost? then Min(batchSize, limit.size - n) else batchSize;
    var page := Take(all[n..], size);
    assert page == all[n..n + |page|];
  }

  // The target rows after its first n, and the cursor after them.
  ghost predicate NextRows(archive: Archive, rows: seq<Row>, limit: Limit, n: nat, page: seq<Row>, next: Cursor) {
    var target := Target(archive, rows, limit);
    && n + |page| <= |target| && page == target[n..n + |page|]
    && (limit.AtMost? ==> n + |page| <= limit.size) && next == CursorAt(target, limit, n + |page|)
  }

  // The query for the next page, and the cursor after it.
  method ReadPage(archive: Archive, rows: seq<Row>, batchSize: nat, cursor: Cursor, ghost limit: Limit,
                  ghost n: nat)
    returns (page: seq<Row>, next: Cursor)
    requires Distinct(rows) && n <= |Target(archive, rows, limit)| && batchSize >= 1
    requires (limit.AtMost? ==> n < limit.size) && cursor == CursorAt(Target(archive, rows, limit), limit, n)
    ensures NextRows(archive, rows, limit, n, page, next) && (page == [] ==> n == |Target(archive, rows, limit)|)
  {
    PageNext(archive, rows, limit, n, batchSize);
    var size: nat := if cursor.remaining.AtMost? then Min(batchSize, cursor.remaining.size) else batchSize;
    page := Page(archive, rows, cursor.lastId, size);
    if page == [] { return page, cursor; }
    var remaining := if cursor.remaining.AtMost? then AtMost(cursor.remaining.size - |page|) else Unlimited;
    next := Cursor(Last(page).id, remaining);
  }

  lemma {:induction false} RowsNext(archive: Archive, target: seq<Row>, n: nat, page: seq<Row>, apply: bool,
                                    start: State)
    requires Distinct(target) && n + |page| <= |target| && page == target[n..n + |page|]
    ensures Backfilled(archive, page, apply, Backfilled(archive, target[..n], apply, start)) ==
            Backfilled(archive, target[..n + |page|], apply, start)
  {
    var next := target[..n + |page|];
    assert next[..n] == target[..n] && next[n..] == page && next == target[..n] + page;
    CutApart(next, n);
    BackfilledNext(archive, target[..n], page, apply, start);
  }

  lemma {:induction false} TargetSorted(archive: Archive, rows: seq<Row>, limit: Limit)
    requires Distinct(rows)
    ensures Distinct(Target(archive, rows, limit))
  {
    MatchingSorted(archive, rows);
    AfterRows(Matching(archive, rows), 0);
  }

  lemma {:induction false} TargetNext(archive: Archive, rows: seq<Row>, limit: Limit, n: nat, page: seq<Row>,
                                      apply: bool, start: State)
    requires Distinct(rows) && n + |page| <= |Target(archive, rows, limit)|
    requires page == Target(archive, rows, limit)[n..n + |page|]
    ensures var target := Target(archive, rows, limit);
            Backfilled(archive, page, apply, Backfilled(archive, target[..n], apply, start)) ==
            Backfilled(archive, target[..n + |page|], apply, start)
  {
    TargetSorted(archive, rows, limit);
    RowsNext(archive, Target(archive, rows, limit), n, page, apply, start);
  }

  /** Without a limit the target is every matching row with an id above 0. */
  lemma {:induction false} TargetRows(archive: Archive, rows: seq<Row>)
    requires Distinct(rows)
    ensures forall row :: row in Target(archive, rows, Unlimited) <==>
                              row in rows && row.id > 0 && row.text.Some? && archive.matches(row.text.value)
  {
    MatchingSorted(archive, rows);
    AfterRows(Matching(archive, rows), 0);
  }

  lemma {:induction false} RunsAgree(archive: Archive, target: seq<Row>, n: nat, start: State)
    requires Distinct(target) && n <= |target|
    ensures var stopped := Backfilled(archive, target[..n], true, start);
            var again := Backfilled(archive, target, true, stopped);
            && again.mentions == Filled(archive, target, start.mentions)
            && Backfilled(archive, target, true, again).inserted == again.inserted
  {
    StoppedAndRunAgain(archive, target, n, start.mentions);
    SecondRunEmpty(archive, target, start.mentions);
  }

  // Where a run stands once it has read this many of its target's rows.
  ghost predicate Reached(archive: Archive, rows: seq<Row>, limit: Limit, apply: bool, start: State, seen: nat,
                          cursor: Cursor, now: State)
  {
    && seen <= |Target(archive, rows, limit)| && (limit.AtMost? ==> seen <= limit.size)
    && cursor == CursorAt(Target(archive, rows, limit), limit, seen)
    && now == Backfilled(archive, Target(archive, rows, limit)[..seen], apply, start)
  }

  lemma {:induction false} ReachedNext(archive: Archive, rows: seq<Row>, limit: Limit, apply: bool, start: State,
                                       seen: nat, cursor: Cursor, now: State, page: seq<Row>, next: Cursor)
    requires Distinct(rows) && Reached(archive, rows, limit, apply, start, seen, cursor, now)
    requires NextRows(archive, rows, limit, seen, page, next)
    ensures Reached(archive, rows, limit, apply, start, seen + |page|, next, Backfilled(archive, page, apply, now))
  {
    TargetNext(archive, rows, limit, seen, page, apply, start);
  }

  // The page just read, worked in.
  method FillNext(archive: Archive, rows: seq<Row>, page: seq<Row>, session: Session, stats: Stats, apply: bool,
                  ghost cursor: Cursor, ghost next: Cursor, ghost limit: Limit, ghost seen: nat, ghost start: State)
    requires Distinct(rows) && NextRows(archive, rows, limit, seen, page, next)
    requires Reached(archive, rows, limit, apply, start, seen, cursor, Now(session, stats))
    modifies session, stats
    ensures Reached(archive, rows, limit, apply, start, seen + |page|, next, Now(session, stats))
  {
    ReachedNext(archive, rows, limit, apply, start, seen, cursor, Now(session, stats), page, next);
    BackfillPage(archive, page, session, apply, stats);
  }

  lemma {:induction false} ReachedStart(archive: Archive, rows: seq<Row>, limit: Limit, apply: bool, start: State)
    ensures Reached(archive, rows, limit, apply, start, 0, Cursor(0, limit), start)
  {
    assert Target(archive, rows, limit)[..0] == [];
    assert start.mentions + [] == start.mentions;
  }

  lemma {:induction false} ReachedReads(archive: Archive, rows: seq<Row>, limit: Limit, apply: bool, start: State,
                                        seen: nat, cursor: Cursor, now: State)
    requires Reached(archive, rows, limit, apply, start, seen, cursor, now)
    requires cursor.remaining.Unlimited? || cursor.remaining.size > 0
    ensures seen <= |Target(archive, rows, limit)| && (limit.AtMost? ==> seen < limit.size)
    ensures cursor == CursorAt(Target(archive, rows, limit), limit, seen)
  {
  }

  lemma {:induction false} ReachedEnd(archive: Archive, rows: seq<Row>, limit: Limit, apply: bool, start: State,
                                      seen: nat, cursor: Cursor, now: State)
    requires Reached(archive, rows, limit, apply, start, seen, cursor, now) && cursor.remaining == AtMost(0)
    ensures seen == |Target(archive, rows, limit)|
  {
  }

  /** `_backfill_text_model`, perhaps stopped between two pages: it reads the target rows once
      each, in order; a dry run counts what an applying run inserts, whatever the page size. */
  method Run(archive: Archive, rows: seq<Row>, session: Session, stats: Stats, batchSize: nat, limit: Limit,
             apply: bool, stoppedAfter: Limit)
    returns (seen: nat, cursor: Cursor)
    requires Distinct(rows) && batchSize >= 1
    modifies session, stats
    ensures Reached(archive, rows, limit, apply, old(Now(session, stats)), seen, cursor, Now(session, stats))
    ensures stoppedAfter.Unlimited? ==> seen == |Target(archive, rows, limit)|
  {
    hide Reached, Target, NextRows, CursorAt;
    ghost var start := Now(session, stats);
    var pages := 0;
    seen, cursor := 0, Cursor(0, limit);
    ReachedStart(archive, rows, limit, apply, start);
    while cursor.remaining.Unlimited? || cursor.remaining.size > 0
      invariant Reached(archive, rows, limit, apply, start, seen, cursor, Now(session, stats))
      decreases |Target(archive, rows, limit)| - seen
    {
      if stoppedAfter == AtMost(pages) { return; }
      ReachedReads(archive, rows, limit, apply, start, seen, cursor, Now(session, stats));
      var page, next := ReadPage(archive, rows, batchSize, cursor, limit, seen);
      if page == [] { return; }
      FillNext(archive, rows, page, session, stats, apply, cursor, next, limit, seen, start);
      cursor, seen, pages := next, seen + |page|, pages + 1;
    }
    ReachedEnd(archive, rows, limit, apply, start, seen, cursor, Now(session, stats));
  }

  /** A run stopped between pages, then a whole run: the table is the one of a single run, and
      a third run inserts nothing. */
  method StopAndRunAgain(archive: Archive, rows: seq<Row>, session: Session, stats: Stats, batchSize: nat,
                         limit: Limit, pages: nat)
    returns (thirdInserted: int)
    requires Distinct(rows) && batchSize >= 1
    modifies session, stats
    ensures session.mentions == Filled(archive, Target(archive, rows, limit), old(session.mentions))
    ensures thirdInserted == 0
  {
    ghost var start, target := Now(session, stats), Target(archive, rows, limit);
    TargetSorted(archive, rows, limit);
    assert target[..|target|] == target;
    var stopped, cursor := Run(archive, rows, session, stats, batchSize, limit, true, AtMost(pages));
    RunsAgree(archive, target, stopped, start);
    var whole, end := Run(archive, rows, session, stats, batchSize, limit, true, Unlimited);
    var before := stats.inserted;
    whole, end := Run(archive, rows, session, stats, batchSize, limit, true, Unlimited);
    thirdInserted := stats.inserted - before;
  }
}
