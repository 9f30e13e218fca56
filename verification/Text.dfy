/** Splitting text at a delimiter, as `split` does in JavaScript and Python, and stripping
    its ends, as `strip` does in Python. */
module Text {

  function Init<T>(s: seq<T>): seq<T>
    requires s != []
  {
    s[..|s| - 1]
  }

  function Last<T>(s: seq<T>): T
    requires s != []
  {
    s[|s| - 1]
  }

  // The pieces with a character added at the very front.
  function Glue(c: char, pieces: seq<string>): (r: seq<string>)
    requires pieces != []
    ensures |r| == |pieces|
  {
    [[c] + pieces[0]] + pieces[1..]
  }

  // The pieces between the leftmost, non-overlapping occurrences of d; at least one.
  function Split(t: string, d: string): (pieces: seq<string>)
    requires d != ""
    ensures |pieces| >= 1
    decreases |t|
  {
    if |t| < |d| then [t]
    else if t[..|d|] == d then [""] + Split(t[|d|..], d)
    else Glue(t[0], Split(t[1..], d))
  }

  function Concat(parts: seq<string>): string {
    if parts == [] then "" else Concat(Init(parts)) + Last(parts)
  }

  // The pieces with d between them.
  function Join(pieces: seq<string>, d: string): string
    requires pieces != []
  {
    if |pieces| == 1 then pieces[0] else pieces[0] + (d + Join(pieces[1..], d))
  }

  ghost predicate Contains(t: string, d: string) {
    exists i {:trigger t[i..]} :: 0 <= i <= |t| && d <= t[i..]
  }

  lemma {:induction false} GlueJoin(c: char, pieces: seq<string>, d: string)
    requires pieces != []
    ensures Join(Glue(c, pieces), d) == [c] + Join(pieces, d)
  {
    assert Glue(c, pieces)[1..] == pieces[1..];
  }

  lemma {:induction false} GlueConcat(c: char, a: seq<string>, b: seq<string>)
    requires a != []
    ensures Glue(c, a + b) == Glue(c, a) + b
  {
    assert (a + b)[1..] == a[1..] + b;
  }

  lemma {:induction false} GlueInit(c: char, a: seq<string>)
    requires |a| >= 2
    ensures Init(Glue(c, a)) == Glue(c, Init(a)) && Last(Glue(c, a)) == Last(a)
  {
    assert Init(a)[1..] == Init(a[1..]);
  }

  /** Joining the pieces gives the text back. */
  lemma {:induction false} SplitJoin(t: string, d: string)
    requires d != ""
    ensures Join(Split(t, d), d) == t
    decreases |t|
  {
    if |t| < |d| {
    } else if t[..|d|] == d {
      SplitJoin(t[|d|..], d);
      assert Split(t, d)[1..] == Split(t[|d|..], d);
      assert t == d + t[|d|..];
    } else {
      SplitJoin(t[1..], d);
      GlueJoin(t[0], Split(t[1..], d), d);
    }
  }

  // A delimiter in c + x starts at the front, or is in x.
  lemma {:induction false} ContainsTail(c: char, x: string, d: string)
    requires Contains([c] + x, d)
    ensures d <= [c] + x || Contains(x, d)
  {
    var p := [c] + x;
    var i :| 0 <= i <= |p| && d <= p[i..];
    if i == 0 { assert p[0..] == p; } else { assert p[i..] == x[i - 1..]; }
  }

  lemma {:induction false} ContainsSuffix(t: string, k: nat, d: string)
    requires k <= |t| && Contains(t[k..], d)
    ensures Contains(t, d)
  {
    var i :| 0 <= i <= |t[k..]| && d <= t[k..][i..];
    assert t[i + k..] == t[k..][i..];
  }

  /** Text without the delimiter is one piece. */
  lemma {:induction false} NoDelimiter(t: string, d: string)
    requires d != "" && !Contains(t, d)
    ensures Split(t, d) == [t]
    decreases |t|
  {
    if |t| >= |d| {
      assert t[0..] == t;
      assert !(d <= t);
      if Contains(t[1..], d) { ContainsSuffix(t, 1, d); }
      NoDelimiter(t[1..], d);
      assert t == [t[0]] + t[1..];
    }
  }

  lemma {:induction false} ConcatAppend(a: seq<string>, b: seq<string>)
    ensures Concat(a + b) == Concat(a) + Concat(b)
    decreases |b|
  {
    if b == [] {
      assert a + b == a;
    } else {
      ConcatAppend(a, Init(b));
      assert Init(a + b) == a + Init(b) && Last(a + b) == Last(b);
      assert Concat(a) + Concat(Init(b)) + Last(b) == Concat(a) + (Concat(Init(b)) + Last(b));
    }
  }

  lemma {:induction false} PieceAtFront(t: string, d: string)
    requires d != ""
    ensures Split(t, d)[0] <= t
    decreases |t|
  {
    if |t| >= |d| && t[..|d|] != d {
      PieceAtFront(t[1..], d);
      assert t == [t[0]] + t[1..];
    }
  }

  /** No piece holds the delimiter. */
  lemma {:induction false} PiecesClean(t: string, d: string, k: nat)
    requires d != "" && k < |Split(t, d)|
    ensures !Contains(Split(t, d)[k], d)
    decreases |t|
  {
    var piece := Split(t, d)[k];
    if |t| >= |d| {
      if t[..|d|] == d {
        if k > 0 { PiecesClean(t[|d|..], d, k - 1); }
      } else {
        PiecesClean(t[1..], d, k);
        if k == 0 && Contains(piece, d) {
          ContainsTail(t[0], Split(t[1..], d)[0], d);
          PieceAtFront(t, d);
          assert false;
        }
      }
    }
  }

  lemma {:induction false} SinglePiece(t: string, d: string)
    requires d != "" && |Split(t, d)| == 1
    ensures Split(t, d) == [t]
    decreases |t|
  {
    if |t| >= |d| && t[..|d|] != d {
      SinglePiece(t[1..], d);
      assert t == [t[0]] + t[1..];
    }
  }

  // The text a split makes of t, with what the last piece becomes before u.
  ghost function Carried(t: string, u: string, d: string): seq<string>
    requires d != ""
  {
    Init(Split(t, d)) + Split(Last(Split(t, d)) + u, d)
  }

  /** Carrying the last piece over to the next text is splitting the whole, even
      when a delimiter straddles the cut. */
  lemma {:induction false} SplitCarry(t: string, u: string, d: string)
    requires d != ""
    ensures Split(t + u, d) == Carried(t, u, d)
    decreases |t|
  {
    if |t| < |d| {
      assert Init(Split(t, d)) == [];
    } else if t[..|d|] == d {
      SplitCarry(t[|d|..], u, d);
      assert (t + u)[..|d|] == d && (t + u)[|d|..] == t[|d|..] + u;
      SplitCarryMatch(t, u, d);
    } else {
      assert (t + u)[..|d|] == t[..|d|] && (t + u)[1..] == t[1..] + u;
      SplitCarry(t[1..], u, d);
      SplitCarryGlue(t, u, d);
    }
  }

  lemma {:induction false} SplitMatches(t: string, d: string)
    requires d != "" && |t| >= |d| && t[..|d|] == d
    ensures Split(t, d) == [""] + Split(t[|d|..], d)
  {
  }

  lemma {:induction false} SplitCarryMatch(t: string, u: string, d: string)
    requires d != "" && |t| >= |d| && t[..|d|] == d
    requires Split(t[|d|..] + u, d) == Carried(t[|d|..], u, d)
    ensures [""] + Split(t[|d|..] + u, d) == Carried(t, u, d)
  {
    var rest := Split(t[|d|..], d);
    SplitMatches(t, d);
    hide Split;
    assert Init([""] + rest) == [""] + Init(rest) && Last([""] + rest) == Last(rest);
    assert [""] + (Init(rest) + Split(Last(rest) + u, d)) == [""] + Init(rest) + Split(Last(rest) + u, d);
  }

  lemma {:induction false} SplitUnfold(t: string, u: string, d: string)
    requires d != "" && |t| >= |d| && t[..|d|] != d
    ensures Split(t + u, d) == Glue(t[0], Split(t[1..] + u, d))
  {
    assert (t + u)[1..] == t[1..] + u && (t + u)[..|d|] == t[..|d|];
  }

  lemma {:induction false} SplitCarryGlue(t: string, u: string, d: string)
    requires d != "" && |t| >= |d| && t[..|d|] != d
    requires Split(t[1..] + u, d) == Carried(t[1..], u, d)
    ensures Glue(t[0], Split(t[1..] + u, d)) == Carried(t, u, d)
  {
    var rest := Split(t[1..], d);
    if |rest| == 1 {
      SinglePiece(t, d);
      SinglePiece(t[1..], d);
      SplitUnfold(t, u, d);
      assert Init([t]) == [];
    } else {
      GlueInit(t[0], rest);
      GlueConcat(t[0], Init(rest), Split(Last(rest) + u, d));
    }
  }

  // ---- Stripping ------------------------------------------------------------------------

  // Where str.splitlines breaks a line.
  predicate LineBoundary(c: char) {
    c in {'\n', '\r', '\U{0B}', '\U{0C}', '\U{1C}', '\U{1D}', '\U{1E}', '\U{85}', '\U{2028}', '\U{2029}'}
  }

  // What str.strip removes.
  predicate Space(c: char) {
    LineBoundary(c) || c in {'\t', ' ', '\U{1F}', '\U{A0}', '\U{1680}', '\U{202F}', '\U{205F}', '\U{3000}'}
    || '\U{2000}' <= c <= '\U{200A}'
  }

  function StripLeft(t: string, drop: char -> bool): string {
    if t != "" && drop(t[0]) then StripLeft(t[1..], drop) else t
  }

  function StripRight(t: string, drop: char -> bool): string {
    if t != "" && drop(Last(t)) then StripRight(Init(t), drop) else t
  }

  function Strip(t: string, drop: char -> bool): string {
    StripRight(StripLeft(t, drop), drop)
  }

  lemma {:induction false} StripKeeps(t: string, drop: char -> bool)
    requires t != "" ==> !drop(t[0]) && !drop(Last(t))
    ensures Strip(t, drop) == t
  {
  }

  lemma {:induction false} StripRightBehind(front: string, t: string, drop: char -> bool)
    requires front == "" || !drop(Last(front))
    ensures StripRight(front + t, drop) == front + StripRight(t, drop)
    decreases |t|
  {
    if t == "" {
      assert front + t == front;
    } else {
      assert Last(front + t) == Last(t) && Init(front + t) == front + Init(t);
      if drop(Last(t)) {
        StripRightBehind(front, Init(t), drop);
      }
    }
  }

  lemma {:induction false} StripRightEnd(t: string, drop: char -> bool)
    ensures StripRight(t, drop) <= t
    ensures StripRight(t, drop) == "" || !drop(Last(StripRight(t, drop)))
    ensures StripRight(t, drop) == t <==> t == "" || !drop(Last(t))
    decreases |t|
  {
    if t != "" && drop(Last(t)) {
      StripRightEnd(Init(t), drop);
    }
  }

  lemma {:induction false} StripLeftEnd(t: string, drop: char -> bool)
    ensures |StripLeft(t, drop)| <= |t|
    ensures StripLeft(t, drop) == "" || !drop(StripLeft(t, drop)[0])
    ensures |StripLeft(t, drop)| == |t| ==> StripLeft(t, drop) == t
    decreases |t|
  {
    if t != "" && drop(t[0]) {
      StripLeftEnd(t[1..], drop);
    }
  }

  // What strip leaves starts and ends with characters it keeps; it shortens whatever it changes.
  lemma {:induction false} StripEnds(t: string, drop: char -> bool)
    ensures var s := Strip(t, drop);
            && (s != "" ==> !drop(s[0]) && !drop(Last(s)))
            && |s| <= |t| && (|s| == |t| ==> s == t)
  {
    StripLeftEnd(t, drop);
    StripRightEnd(StripLeft(t, drop), drop);
  }

  lemma {:induction false} StripTwice(t: string, drop: char -> bool)
    ensures Strip(Strip(t, drop), drop) == Strip(t, drop)
  {
    StripEnds(t, drop);
    StripKeeps(Strip(t, drop), drop);
  }
}
