/**
 * The Fun Wheel page logic (app.js): the editable list of options, the
 * spin/tick state, and the rule that picks the winning slice from the final
 * rotation angle. Drawing, sound, confetti, timing and persistence are not
 * modelled; the random part of a spin and each animation frame's angle are
 * inputs.
 */
module App {
  import opened Wrappers

  /** The list used when nothing is stored, and by the reset button. */
  const DEFAULT_OPTIONS: seq<string> := ["Truth", "Dare", "Prize 🎁", "Sing a Song 🎤", "Dance 💃", "Joke 😂"]

  /** Full turns every spin makes before the random extra angle. */
  const BASE_TURNS: int := 3

  // ---------------------------------------------------------------------
  // String.prototype.trim
  // ---------------------------------------------------------------------

  /**
   * The characters JavaScript's `trim` removes: white space (tab, vertical
   * tab, form feed, space, no-break space, the byte order mark and the
   * Unicode space separators) and line terminators.
   */
  const WHITE_SPACE: set<char> := {
    '\t', '\n', '\U{B}', '\U{C}', '\r', ' ', '\U{A0}', '\U{1680}',
    '\U{2000}', '\U{2001}', '\U{2002}', '\U{2003}', '\U{2004}', '\U{2005}',
    '\U{2006}', '\U{2007}', '\U{2008}', '\U{2009}', '\U{200A}',
    '\U{2028}', '\U{2029}', '\U{202F}', '\U{205F}', '\U{3000}', '\U{FEFF}'
  }

  predicate IsSpace(c: char) {
    c in WHITE_SPACE
  }

  /** The index of the first character at or after `from` that is not white space, or `|s|`. */
  function SkipSpaces(s: string, from: nat): (i: nat)
    requires from <= |s|
    ensures from <= i <= |s|
    ensures forall k :: from <= k < i ==> IsSpace(s[k])
    ensures i < |s| ==> !IsSpace(s[i])
    decreases |s| - from
  {
    if from < |s| && IsSpace(s[from]) then SkipSpaces(s, from + 1) else from
  }

  /** The end of `s[lo..hi]` once its trailing white space is dropped. */
  function DropTrailingSpaces(s: string, lo: nat, hi: nat): (j: nat)
    requires lo <= hi <= |s|
    ensures lo <= j <= hi
    ensures forall k :: j <= k < hi ==> IsSpace(s[k])
    ensures j > lo ==> !IsSpace(s[j - 1])
    decreases hi
  {
    if hi > lo && IsSpace(s[hi - 1]) then DropTrailingSpaces(s, lo, hi - 1) else hi
  }

  /** `r` stands at offset `a` of `s`, and everything around it is white space. */
  predicate TrimmedAt(s: string, r: string, a: int) {
    && 0 <= a && a + |r| <= |s| && r == s[a..a + |r|]
    && (forall i :: 0 <= i < a ==> IsSpace(s[i]))
    && (forall i :: a + |r| <= i < |s| ==> IsSpace(s[i]))
  }

  /** `s.trim()`: the part of `s` between its leading and its trailing white space. */
  function Trim(s: string): (r: string)
    ensures exists a :: TrimmedAt(s, r, a)
    ensures r == [] || (!IsSpace(r[0]) && !IsSpace(r[|r| - 1]))
  {
    var a := SkipSpaces(s, 0);
    var b := DropTrailingSpaces(s, a, |s|);
    assert TrimmedAt(s, s[a..b], a);
    s[a..b]
  }

  /** Trimming twice is trimming once. */
  lemma TrimIdempotent(s: string)
    ensures Trim(Trim(s)) == Trim(s)
  {
    var r := Trim(s);
    assert SkipSpaces(r, 0) == 0;
    assert DropTrailingSpaces(r, 0, |r|) == |r|;
    assert r[0..|r|] == r;
  }

  /** The trimmed text is empty exactly when the text is all white space. */
  lemma TrimEmptyIff(s: string)
    ensures Trim(s) == [] <==> forall i :: 0 <= i < |s| ==> IsSpace(s[i])
  {
  }

  // ---------------------------------------------------------------------
  // The list operations behind the editor's buttons
  // ---------------------------------------------------------------------

  /** Move up: row `i` trades places with the row above; the top row stays. */
  function MovedUp(s: seq<string>, i: nat): (r: seq<string>)
    requires i < |s|
    ensures |r| == |s| && multiset(r) == multiset(s)
    ensures i > 0 ==> r[i - 1] == s[i] && r[i] == s[i - 1]
    ensures forall j :: 0 <= j < |s| && j != i && j != i - 1 ==> r[j] == s[j]
    ensures i == 0 ==> r == s
  {
    if i > 0 then s[i - 1 := s[i]][i := s[i - 1]] else s
  }

  /** Move down: row `i` trades places with the row below; the last row stays. */
  function MovedDown(s: seq<string>, i: nat): (r: seq<string>)
    requires i < |s|
    ensures |r| == |s| && multiset(r) == multiset(s)
    ensures i < |s| - 1 ==> r[i + 1] == s[i] && r[i] == s[i + 1]
    ensures forall j :: 0 <= j < |s| && j != i && j != i + 1 ==> r[j] == s[j]
    ensures i == |s| - 1 ==> r == s
  {
    if i < |s| - 1 then s[i + 1 := s[i]][i := s[i + 1]] else s
  }

  /** Moving a row down undoes moving the row below it up. */
  lemma MoveDownUndoesMoveUp(s: seq<string>, i: nat)
    requires 0 < i < |s|
    ensures MovedDown(MovedUp(s, i), i - 1) == s
  {
  }

  /** Moving a row up undoes moving the row above it down. */
  lemma MoveUpUndoesMoveDown(s: seq<string>, i: nat)
    requires i + 1 < |s|
    ensures MovedUp(MovedDown(s, i), i + 1) == s
  {
  }

  /**
   * Edit: a cancelled prompt (`None`) changes nothing; otherwise row `i`
   * becomes the trimmed answer, unless that is empty.
   */
  function Edited(s: seq<string>, i: nat, answer: Option<string>): (r: seq<string>)
    requires i < |s|
    ensures |r| == |s|
    ensures forall j :: 0 <= j < |s| && j != i ==> r[j] == s[j]
    ensures answer.None? || Trim(answer.value) == [] ==> r == s
    ensures answer.Some? && Trim(answer.value) != [] ==> r[i] == Trim(answer.value)
  {
    if answer.Some? then s[i := if Trim(answer.value) != [] then Trim(answer.value) else s[i]] else s
  }

  /** Delete: `splice(i, 1)` removes row `i` and keeps the order of the others. */
  function RemovedAt(s: seq<string>, i: nat): (r: seq<string>)
    requires i < |s|
    ensures |r| == |s| - 1
    ensures forall j :: 0 <= j < i ==> r[j] == s[j]
    ensures forall j :: i <= j < |r| ==> r[j] == s[j + 1]
    ensures multiset(r) + multiset{s[i]} == multiset(s)
  {
    assert s == s[..i] + [s[i]] + s[i + 1..];
    s[..i] + s[i + 1..]
  }

  /** Add: the trimmed text is appended, unless it is empty. */
  function Added(s: seq<string>, text: string): (r: seq<string>)
    ensures Trim(text) == [] ==> r == s
    ensures Trim(text) != [] ==> |r| == |s| + 1 && r[..|s|] == s && r[|s|] == Trim(text)
  {
    var v := Trim(text);
    if v == [] then s else s + [v]
  }

  /** Deleting the row just added gives back the list. */
  lemma DeleteUndoesAdd(s: seq<string>, text: string)
    requires Trim(text) != []
    ensures RemovedAt(Added(s, text), |s|) == s
  {
    var r := RemovedAt(Added(s, text), |s|);
    assert forall j :: 0 <= j < |s| ==> r[j] == s[j];
  }

  // ---------------------------------------------------------------------
  // Slice arithmetic: which slice is under the pointer
  // ---------------------------------------------------------------------

  /** JavaScript's `a % 360`: the remainder of truncating division, with the sign of `a`. */
  function Rem360(a: real): (r: real)
    ensures a >= 0.0 ==> 0.0 <= r < 360.0
    ensures a < 0.0 ==> -360.0 < r <= 0.0
    ensures exists q :: a - r == Turns(q)
    ensures -360.0 < a < 360.0 ==> r == a
  {
    if a >= 0.0 then
      var q := (a / 360.0).Floor;
      a - Turns(q)
    else
      var q := ((-a) / 360.0).Floor;
      assert Turns(-q) == -Turns(q);
      -((-a) - Turns(q))
  }

  /** `q` whole turns, in degrees. */
  function Turns(q: int): real {
    q as real * 360.0
  }

  /** `Math.max(1, options.length)`: the number of slices drawn. */
  function Slices(count: nat): (n: nat)
    ensures n >= 1 && (count > 0 ==> n == count)
  {
    if count > 0 then count else 1
  }

  /** `x * n` as `n` additions of `x`, so that the slice bounds are proved without nonlinear arithmetic. */
  function Times(x: real, n: nat): real
    decreases n
  {
    if n == 0 then 0.0 else Times(x, n - 1) + x
  }

  lemma {:induction false} TimesIsProduct(x: real, n: nat)
    ensures Times(x, n) == x * n as real
    decreases n
  {
    if n > 0 {
      TimesIsProduct(x, n - 1);
      assert x * (n - 1) as real + x == x * n as real;
    }
  }

  lemma {:induction false} TimesBounds(x: real, n: nat)
    requires -360.0 < x < 360.0
    ensures 0.0 <= x ==> 0.0 <= Times(x, n) && (n > 0 ==> Times(x, n) < 360.0 * n as real)
    ensures x <= 0.0 ==> Times(x, n) <= 0.0 && (n > 0 ==> -360.0 * n as real < Times(x, n))
    decreases n
  {
    if n > 0 {
      TimesBounds(x, n - 1);
    }
  }

  /** Dividing by the slice width `360 / n` is multiplying by `n / 360`. */
  lemma PerSlice(x: real, n: nat)
    requires n > 0
    ensures 360.0 / n as real != 0.0
    ensures x / (360.0 / n as real) == Times(x, n) / 360.0
  {
    TimesIsProduct(x, n);
    var m := n as real;
    assert x / (360.0 / m) == x * m / 360.0;
  }

  lemma FloorBounds(y: real, n: int)
    ensures 0.0 <= y < n as real ==> 0 <= y.Floor < n
    ensures -(n as real) < y <= 0.0 ==> -n <= y.Floor <= 0
  {
  }

  /**
   * The slice index used by `tickOnSlice` and `showResult`,
   * `Math.floor((angle % 360) / (360 / Math.max(1, count)))`. For a
   * non-negative angle it is a slice number; for a negative one it is at
   * most 0.
   */
  function SliceIndex(angle: real, count: nat): (k: int)
    ensures angle >= 0.0 ==> 0 <= k < Slices(count)
    ensures angle < 0.0 ==> -(Slices(count) as int) <= k <= 0
  {
    var n := Slices(count);
    var x := Rem360(angle);
    PerSlice(x, n);
    TimesBounds(x, n);
    FloorBounds(Times(x, n) / 360.0, n);
    (x / (360.0 / n as real)).Floor
  }

  /** JavaScript's `%` on integers (truncating), for a positive divisor. */
  function JsRemInt(a: int, b: int): (r: int)
    requires b > 0
    ensures a >= 0 ==> 0 <= r < b
    ensures a < 0 ==> -b < r <= 0
    ensures b <= a < 2 * b ==> r == a - b
  {
    if a >= 0 then
      assert b <= a < 2 * b ==> a / b == 1 by {
        if b <= a < 2 * b {
          DivIsOne(a, b);
        }
      }
      a % b
    else -((-a) % b)
  }

  lemma DivIsOne(a: int, b: int)
    requires 0 < b <= a < 2 * b
    ensures a / b == 1 && a % b == a - b
  {
    var q, r := a / b, a % b;
    assert a == q * b + r && 0 <= r < b;
    var d := q - 1;
    assert d * b == (a - b) - r;
    assert d >= 1 ==> d * b >= b;
    assert d <= -1 ==> d * b <= -b;
    assert q == 1;
  }

  /**
   * The winning index of `showResult`: `idx = n - sliceIndex - 1`, read as
   * `(idx + n) % n`. It is always a row of the list; for a non-negative
   * angle it counts the slices from the other end.
   */
  function SelectedIndex(angle: real, n: nat): (idx: int)
    requires n > 0
    ensures 0 <= idx < n
    ensures angle >= 0.0 ==> idx == n - 1 - SliceIndex(angle, n)
  {
    var k := SliceIndex(angle, n);
    JsRemInt(n - k - 1 + n, n)
  }

  /** The option `showResult` announces; with an empty list it shows `undefined` (`None`). */
  function Selection(options: seq<string>, angle: real): (r: Option<string>)
    ensures r.Some? <==> |options| > 0
    ensures r.Some? ==> exists i :: 0 <= i < |options| && r.value == options[i] && i == SelectedIndex(angle, |options|)
  {
    if |options| == 0 then None else Some(options[SelectedIndex(angle, |options|)])
  }

  /**
   * For a non-negative angle, row `i` wins exactly when the angle (mod 360)
   * lies in the `(n - 1 - i)`-th arc of `360 / n` degrees.
   */
  lemma SelectedIffInArc(angle: real, n: nat, i: int)
    requires angle >= 0.0 && n > 0 && 0 <= i < n
    ensures SelectedIndex(angle, n) == i <==>
            (n - 1 - i) as real * 360.0 <= Rem360(angle) * n as real < (n - i) as real * 360.0
  {
    var x := Rem360(angle);
    PerSlice(x, n);
    TimesIsProduct(x, n);
    FloorIff(Times(x, n), n - 1 - i);
  }

  /** `floor(t / 360) == j` exactly when `t` lies in the `j`-th interval of 360. */
  lemma FloorIff(t: real, j: int)
    ensures (t / 360.0).Floor == j <==> j as real * 360.0 <= t < (j + 1) as real * 360.0
  {
  }

  /** A full turn more lands on the same slice. */
  lemma {:induction false} FullTurnSameResult(angle: real, n: nat)
    requires angle >= 0.0 && n > 0
    ensures SelectedIndex(angle + 360.0, n) == SelectedIndex(angle, n)
  {
    var q := (angle / 360.0).Floor;
    assert (angle + 360.0) / 360.0 == angle / 360.0 + 1.0;
    assert ((angle + 360.0) / 360.0).Floor == q + 1;
    assert Rem360(angle + 360.0) == Rem360(angle);
  }

  /** The base turns of a spin do not change the winner: only the random extra angle does. */
  lemma {:induction false} BaseTurnsDoNotMatter(options: seq<string>, extra: real)
    requires extra >= 0.0
    ensures Selection(options, BASE_TURNS as real * 360.0 + extra) == Selection(options, extra)
  {
    if |options| > 0 {
      var n := |options|;
      FullTurnSameResult(extra, n);
      FullTurnSameResult(extra + 360.0, n);
      FullTurnSameResult(extra + 720.0, n);
      assert extra + 360.0 + 360.0 == extra + 720.0;
      assert extra + 720.0 + 360.0 == BASE_TURNS as real * 360.0 + extra;
    }
  }

  // ---------------------------------------------------------------------
  // The page state, changed in place by the buttons and the spin
  // ---------------------------------------------------------------------

  class Wheel {
    var options: seq<string>
    /** The text in the "new option" input field. */
    var newOption: string
    var angle: real
    var spinning: bool
    var lastTick: int

    /** Page load: the stored list if there is one (even an empty one), else the defaults. */
    constructor (stored: Option<seq<string>>)
      ensures options == (if stored.Some? then stored.value else DEFAULT_OPTIONS)
      ensures newOption == [] && angle == 0.0 && !spinning && lastTick == -1
    {
      options := if stored.Some? then stored.value else DEFAULT_OPTIONS;
      newOption := [];
      angle := 0.0;
      spinning := false;
      lastTick := -1;
    }

    method MoveUp(i: nat)
      requires i < |options|
      modifies this`options
      ensures options == MovedUp(old(options), i)
    {
      if i > 0 {
        options := options[i - 1 := options[i]][i := options[i - 1]];
      }
    }

    method MoveDown(i: nat)
      requires i < |options|
      modifies this`options
      ensures options == MovedDown(old(options), i)
    {
      if i < |options| - 1 {
        options := options[i + 1 := options[i]][i := options[i + 1]];
      }
    }

    /** `answer` is what `prompt` returned: `None` when cancelled. */
    method Edit(i: nat, answer: Option<string>)
      requires i < |options|
      modifies this`options
      ensures options == Edited(old(options), i, answer)
    {
      if answer.Some? {
        var v := Trim(answer.value);
        options := options[i := if v != [] then v else options[i]];
      }
    }

    method Delete(i: nat)
      requires i < |options|
      modifies this`options
      ensures options == RemovedAt(old(options), i)
    {
      options := options[..i] + options[i + 1..];
    }

    /** The user types into the "new option" field. */
    method TypeNewOption(text: string)
      modifies this`newOption
      ensures newOption == text
    {
      newOption := text;
    }

    /** The add button: append the trimmed field and clear it, unless it is blank. */
    method Add()
      modifies this`options, this`newOption
      ensures options == Added(old(options), old(newOption))
      ensures newOption == (if Trim(old(newOption)) == [] then old(newOption) else [])
    {
      var v := Trim(newOption);
      if v == [] {
        return;
      }
      options := options + [v];
      newOption := [];
    }

    method Reset()
      modifies this`options
      ensures options == DEFAULT_OPTIONS
    {
      options := DEFAULT_OPTIONS;
    }

    /**
     * `spinWheel`: ignored while spinning or with no options; otherwise it
     * starts a spin towards `BASE_TURNS` turns plus `extra` degrees, where
     * `extra` stands for `Math.random() * 360`.
     */
    method Spin(extra: real) returns (target: Option<real>)
      requires 0.0 <= extra < 360.0
      modifies this`spinning, this`lastTick
      ensures target.Some? <==> !old(spinning) && |options| > 0
      ensures target.Some? ==> spinning && lastTick == -1 && target.value == BASE_TURNS as real * 360.0 + extra
      ensures target.None? ==> spinning == old(spinning) && lastTick == old(lastTick)
    {
      if spinning || |options| == 0 {
        return None;
      }
      spinning := true;
      lastTick := -1;
      target := Some(BASE_TURNS as real * 360.0 + extra);
    }

    /** `tickOnSlice`: a tick sounds, and `lastTick` moves, only when the slice changes. */
    method TickOnSlice(current: real) returns (ticked: bool)
      modifies this`lastTick
      ensures lastTick == SliceIndex(current, |options|)
      ensures ticked <==> old(lastTick) != SliceIndex(current, |options|)
    {
      var sliceIndex := SliceIndex(current, |options|);
      ticked := sliceIndex != lastTick;
      if ticked {
        lastTick := sliceIndex;
      }
    }

    /**
     * One animation frame at rotation `current`; `finished` says the spin's
     * time is up, which ends the spin and shows the result.
     */
    method Frame(current: real, finished: bool) returns (ticked: bool, shown: Option<string>)
      modifies this`angle, this`lastTick, this`spinning
      ensures angle == current
      ensures lastTick == SliceIndex(current, |options|)
      ensures ticked <==> old(lastTick) != SliceIndex(current, |options|)
      ensures finished ==> !spinning && shown == Selection(options, current)
      ensures !finished ==> spinning == old(spinning) && shown == None
    {
      angle := current;
      ticked := TickOnSlice(angle);
      shown := None;
      if finished {
        spinning := false;
        shown := Selection(options, angle);
      }
    }
  }
}
