/** Values and string/sequence operations shared by the whole model:
    an optional value, JavaScript's `String.prototype.trim` and `Array.prototype.slice(-n)`. */
module Common {

  datatype Option<+T> = None | Some(value: T) {
    function GetOr(default: T): T {
      match this
      case Some(v) => v
      case None => default
    }
  }

  function Min(a: int, b: int): int { if a <= b then a else b }

  /** The characters `trim` strips: ECMAScript's WhiteSpace and LineTerminator code points. */
  predicate IsSpace(c: char) {
    || c == '\t' || c == '\n' || c == '\U{000B}' || c == '\U{000C}' || c == '\r' || c == ' '
    || c == '\U{00A0}' || c == '\U{1680}' || ('\U{2000}' <= c <= '\U{200A}')
    || c == '\U{2028}' || c == '\U{2029}' || c == '\U{202F}' || c == '\U{205F}'
    || c == '\U{3000}' || c == '\U{FEFF}'
  }

  /** A string that `trim` turns into the empty string, i.e. one that is falsy after trimming. */
  predicate IsBlank(s: string) {
    forall i :: 0 <= i < |s| ==> IsSpace(s[i])
  }

  /** Drops the leading white space: the result is the suffix of `s` that starts at its first
      non-space character. */
  function TrimStart(s: string): (r: string)
    ensures |r| <= |s| && r == s[|s| - |r|..]
    ensures forall i :: 0 <= i < |s| - |r| ==> IsSpace(s[i])
    ensures r != [] ==> !IsSpace(r[0])
  {
    if |s| > 0 && IsSpace(s[0]) then TrimStart(s[1..]) else s
  }

  /** Drops the trailing white space: the result is the prefix of `s` that ends at its last
      non-space character. */
  function TrimEnd(s: string): (r: string)
    ensures |r| <= |s| && r == s[..|r|]
    ensures forall i :: |r| <= i < |s| ==> IsSpace(s[i])
    ensures r != [] ==> !IsSpace(r[|r| - 1])
  {
    if |s| > 0 && IsSpace(s[|s| - 1]) then TrimEnd(s[..|s| - 1]) else s
  }

  /** `s.trim()`: the empty string exactly on blank input, and otherwise a string no longer
      than `s` that neither starts nor ends with white space; `TrimCutsBlankEnds` shows it is
      `s` with a blank prefix and a blank suffix cut off. */
  function Trim(s: string): (r: string)
    ensures r == [] <==> IsBlank(s)
    ensures |r| <= |s|
    ensures r != [] ==> !IsSpace(r[0]) && !IsSpace(r[|r| - 1])
  {
    var t := TrimStart(s);
    var r := TrimEnd(t);
    // a non-empty `t` starts with a non-space, which `TrimEnd` would have kept
    assert r == [] ==> t == [];
    r
  }

  /** What `TrimStart` drops is a blank prefix. */
  lemma TrimStartDropsBlank(s: string)
    ensures IsBlank(s[..|s| - |TrimStart(s)|])
  {
    var head := s[..|s| - |TrimStart(s)|];
    forall i | 0 <= i < |head| ensures IsSpace(head[i]) {
      assert head[i] == s[i];
    }
  }

  /** What `TrimEnd` drops from the suffix `s[a..]` is a blank suffix of `s`. */
  lemma TrimEndDropsBlank(s: string, a: nat)
    requires a <= |s|
    ensures a + |TrimEnd(s[a..])| <= |s|
    ensures IsBlank(s[a + |TrimEnd(s[a..])|..])
  {
    var t := s[a..];
    var tail := s[a + |TrimEnd(t)|..];
    forall i | 0 <= i < |tail| ensures IsSpace(tail[i]) {
      assert tail[i] == t[|TrimEnd(t)| + i];
    }
  }

  /** `r` is `s` with the blank prefix `s[..a]` and a blank suffix cut off. */
  predicate BlankEndsCut(s: string, r: string, a: int) {
    0 <= a <= |s| - |r| && r == s[a..a + |r|] && IsBlank(s[..a]) && IsBlank(s[a + |r|..])
  }

  /** The trimmed text is what is left of `s` once a blank prefix and a blank suffix are cut off. */
  lemma TrimCutsBlankEnds(s: string)
    ensures exists a :: BlankEndsCut(s, Trim(s), a)
  {
    var t := TrimStart(s);
    var a := |s| - |t|;
    assert t == s[a..];
    var r := TrimEnd(t);
    assert r == Trim(s);
    TrimStartDropsBlank(s);
    TrimEndDropsBlank(s, a);
    assert r == s[a..a + |r|];
    assert BlankEndsCut(s, r, a);
  }

  /** `xs.slice(-n)` for a count `n >= 0`: the last `n` elements, or all of them when there
      are fewer. Because `-0` is `0`, `slice(-0)` is `slice(0)`: a count of 0 keeps everything. */
  function SliceLast<T>(xs: seq<T>, n: nat): (r: seq<T>)
    ensures |r| <= |xs| && r == xs[|xs| - |r|..]
    ensures n > 0 ==> |r| == Min(n, |xs|)
    ensures n == 0 ==> r == xs
  {
    if n == 0 || n >= |xs| then xs else xs[|xs| - n..]
  }

  /** Cutting to the last `n` before appending more and cutting again loses nothing: the
      result is the last `n` of everything. */
  lemma SliceLastAppend<T>(xs: seq<T>, ys: seq<T>, n: nat)
    ensures SliceLast(SliceLast(xs, n) + ys, n) == SliceLast(xs + ys, n)
  {
    if n > 0 && n < |xs| {
      var a := SliceLast(xs, n) + ys;
      var b := xs + ys;
      assert a == b[|xs| - n..];
      assert SliceLast(a, n) == b[|b| - Min(n, |a|)..];
    }
  }

  /** Appends `items` one at a time to `buffer`, cutting to the last `n` after each append. */
  function AppendEachSliceLast<T>(buffer: seq<T>, items: seq<T>, n: nat): seq<T>
    decreases |items|
  {
    if items == [] then buffer
    else SliceLast(AppendEachSliceLast(buffer, items[..|items| - 1], n) + [items[|items| - 1]], n)
  }

  /** Cutting after every append is the same as cutting once at the end. */
  lemma {:induction false} AppendEachSliceLastIsSuffix<T>(buffer: seq<T>, items: seq<T>, n: nat)
    requires n == 0 || |buffer| <= n
    ensures AppendEachSliceLast(buffer, items, n) == SliceLast(buffer + items, n)
    decreases |items|
  {
    if items == [] {
      assert buffer + items == buffer;
    } else {
      var init, last := items[..|items| - 1], items[|items| - 1];
      assert items == init + [last];
      assert buffer + init + [last] == buffer + items;
      calc {
        AppendEachSliceLast(buffer, items, n);
        SliceLast(AppendEachSliceLast(buffer, init, n) + [last], n);
        { AppendEachSliceLastIsSuffix(buffer, init, n); }
        SliceLast(SliceLast(buffer + init, n) + [last], n);
        { SliceLastAppend(buffer + init, [last], n); }
        SliceLast(buffer + items, n);
      }
    }
  }
}
