/** The PHP string built-ins the order controller relies on. */
module Php {

  /** `empty($s)` on a string: true for "" and for "0". */
  predicate Empty(s: string)
    ensures Empty(s) ==> |s| <= 1
    ensures |s| == 1 ==> (Empty(s) <==> s[0] == '0')
  {
    s == "" || s == "0"
  }

  /** The characters `trim()` strips when no character list is given. */
  predicate IsTrimChar(c: char) {
    c == ' ' || c == '\t' || c == '\n' || c == '\r' || c == '\0' || c == '\U{000B}'
  }

  /** `ltrim($s)`: the suffix left after the leading run of trim characters. */
  function TrimLeft(s: string): (r: string)
    ensures |r| <= |s| && r == s[|s| - |r|..]
    ensures r == [] || !IsTrimChar(r[0])
    ensures forall k :: 0 <= k < |s| - |r| ==> IsTrimChar(s[k])
  {
    if s != [] && IsTrimChar(s[0]) then TrimLeft(s[1..]) else s
  }

  /** `rtrim($s)`: the prefix left after the trailing run of trim characters. */
  function TrimRight(s: string): (r: string)
    ensures |r| <= |s| && r == s[..|r|]
    ensures r == [] || !IsTrimChar(r[|r| - 1])
    ensures forall k :: |r| <= k < |s| ==> IsTrimChar(s[k])
  {
    if s != [] && IsTrimChar(s[|s| - 1]) then TrimRight(s[..|s| - 1]) else s
  }

  /** `trim($s)`: empty exactly when every character of `s` is a trim character. */
  function Trim(s: string): (r: string)
    ensures r == [] <==> forall k :: 0 <= k < |s| ==> IsTrimChar(s[k])
  {
    var t := TrimLeft(s);
    assert forall k :: |s| - |t| <= k < |s| ==> s[k] == t[k - (|s| - |t|)];
    TrimRight(t)
  }

  /**
   * `implode($sep, $parts)`: no parts give "", one part is returned as it is, and the
   * joined string starts with the first part.
   */
  function Implode(sep: string, parts: seq<string>): (r: string)
    ensures parts == [] ==> r == ""
    ensures |parts| == 1 ==> r == parts[0]
    ensures parts != [] ==> parts[0] <= r
  {
    if |parts| == 0 then ""
    else if |parts| == 1 then parts[0]
    else parts[0] + sep + Implode(sep, parts[1..])
  }

  /** The joined string ends with the last part. */
  lemma {:induction false} ImplodeEndsWithLast(sep: string, parts: seq<string>)
    requires parts != []
    ensures var last := parts[|parts| - 1]; var r := Implode(sep, parts);
      |last| <= |r| && r[|r| - |last|..] == last
  {
    if |parts| > 1 {
      ImplodeEndsWithLast(sep, parts[1..]);
      assert parts[1..][|parts| - 2] == parts[|parts| - 1];
      ImplodeCons(sep, parts);
      var last := parts[|parts| - 1];
      var head := parts[0] + sep;
      var rest := Implode(sep, parts[1..]);
      SliceOfAppend(head, rest, |head| + |rest| - |last|, |head| + |rest|);
    }
  }

  /** Appending one part extends the joined string by the separator and that part. */
  lemma {:induction false} ImplodeSnoc(sep: string, parts: seq<string>, p: string)
    ensures Implode(sep, parts + [p]) == if parts == [] then p else Implode(sep, parts) + sep + p
  {
    if |parts| == 1 {
      assert (parts + [p])[1..] == [p];
    } else if |parts| > 1 {
      assert (parts + [p])[1..] == parts[1..] + [p];
      ImplodeSnoc(sep, parts[1..], p);
    }
  }

  /** Where part `i` starts inside `Implode(sep, parts)`. */
  function PartOffset(sep: string, parts: seq<string>, i: nat): nat
    requires i <= |parts|
  {
    if i == 0 then 0 else |parts[0]| + |sep| + PartOffset(sep, parts[1..], i - 1)
  }

  lemma SliceOfAppend(x: string, y: string, a: nat, b: nat)
    requires |x| <= a <= b <= |x| + |y|
    ensures (x + y)[a..b] == y[a - |x|..b - |x|]
  {
  }

  /** Unfolds `Implode` on two or more parts. */
  lemma ImplodeCons(sep: string, parts: seq<string>)
    requires |parts| > 1
    ensures Implode(sep, parts) == (parts[0] + sep) + Implode(sep, parts[1..])
  {
  }

  /** Part `i` of the joined string sits at `PartOffset(sep, parts, i)`. */
  lemma {:induction false} ImplodeRecoversParts(sep: string, parts: seq<string>, i: nat)
    requires i < |parts|
    ensures PartOffset(sep, parts, i) + |parts[i]| <= |Implode(sep, parts)|
    ensures Implode(sep, parts)[PartOffset(sep, parts, i)..PartOffset(sep, parts, i) + |parts[i]|] == parts[i]
  {
    if |parts| > 1 {
      var head := parts[0] + sep;
      var rest := Implode(sep, parts[1..]);
      ImplodeCons(sep, parts);
      if i == 0 {
        assert (head + rest)[..|parts[0]|] == parts[0];
      } else {
        ImplodeRecoversParts(sep, parts[1..], i - 1);
        var o := PartOffset(sep, parts[1..], i - 1);
        assert parts[1..][i - 1] == parts[i];
        SliceOfAppend(head, rest, |head| + o, |head| + o + |parts[i]|);
      }
    }
  }

  /** Every part but the last is followed by the separator in the joined string. */
  lemma {:induction false} ImplodeSeparatesParts(sep: string, parts: seq<string>, i: nat)
    requires i + 1 < |parts|
    ensures PartOffset(sep, parts, i) + |parts[i]| + |sep| == PartOffset(sep, parts, i + 1)
    ensures PartOffset(sep, parts, i + 1) <= |Implode(sep, parts)|
    ensures Implode(sep, parts)[PartOffset(sep, parts, i) + |parts[i]|..PartOffset(sep, parts, i + 1)] == sep
  {
    var head := parts[0] + sep;
    var rest := Implode(sep, parts[1..]);
    ImplodeCons(sep, parts);
    if i == 0 {
      assert (head + rest)[|parts[0]|..|head|] == sep;
    } else {
      ImplodeSeparatesParts(sep, parts[1..], i - 1);
      var o := PartOffset(sep, parts[1..], i - 1);
      var o' := PartOffset(sep, parts[1..], i);
      assert parts[1..][i - 1] == parts[i];
      assert PartOffset(sep, parts, i) == |head| + o;
      assert PartOffset(sep, parts, i + 1) == |head| + o';
      SliceOfAppend(head, rest, |head| + o + |parts[i]|, |head| + o');
    }
  }
}
