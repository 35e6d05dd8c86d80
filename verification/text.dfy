/** Small string vocabulary shared by the formatting and tracking modules:
    an Option type, and splitting and joining on a one-character separator
    (the reference against which the shapes of changelogs and URLs are stated). */
module Text {

  datatype Option<+T> = None | Some(value: T)

  /** No element of `parts` contains the separator `sep`. */
  predicate SeparatorFree(parts: seq<string>, sep: char)
  {
    forall i :: 0 <= i < |parts| ==> sep !in parts[i]
  }

  /** Index of the first `sep` in `s`, or `|s|` when `s` holds none. */
  function FieldEnd(s: string, sep: char): (k: nat)
    ensures k <= |s|
    ensures k < |s| ==> s[k] == sep
    ensures forall j :: 0 <= j < k ==> s[j] != sep
  {
    if |s| == 0 || s[0] == sep then 0 else 1 + FieldEnd(s[1..], sep)
  }

  /** `s` cut at every `sep`, as Python's `s.split(sep)` does for a
      one-character separator: there is always at least one field. */
  function Split(s: string, sep: char): (parts: seq<string>)
    ensures |parts| >= 1
    ensures SeparatorFree(parts, sep)
    decreases |s|
  {
    var k := FieldEnd(s, sep);
    if k == |s| then [s]
    else [s[..k]] + Split(s[k + 1..], sep)
  }

  /** The fields of `parts` with one `sep` between neighbours, as Python's
      `sep.join(parts)`. */
  function Join(parts: seq<string>, sep: char): string
  {
    if |parts| == 0 then ""
    else if |parts| == 1 then parts[0]
    else parts[0] + [sep] + Join(parts[1..], sep)
  }

  /** Splitting undoes joining whenever no field holds the separator. */
  lemma {:induction false} SplitJoin(parts: seq<string>, sep: char)
    requires |parts| >= 1
    requires SeparatorFree(parts, sep)
    ensures Split(Join(parts, sep), sep) == parts
  {
    var h := parts[0];
    assert sep !in h;
    if |parts| == 1 {
      assert FieldEnd(h, sep) == |h|;
    } else {
      var rest := Join(parts[1..], sep);
      var s := h + [sep] + rest;
      assert Join(parts, sep) == s;
      var k := FieldEnd(s, sep);
      assert s[|h|] == sep;
      assert k == |h|;
      assert s[..k] == h;
      assert s[k + 1..] == rest;
      SplitJoin(parts[1..], sep);
      assert parts == [h] + parts[1..];
    }
  }

  /** `FieldEnd` is the one index that ends the first field. */
  lemma FieldEndUnique(s: string, sep: char, k: nat)
    requires k <= |s|
    requires k < |s| ==> s[k] == sep
    requires forall j :: 0 <= j < k ==> s[j] != sep
    ensures FieldEnd(s, sep) == k
  {
  }

  /** Adding one last separator-free field after a separator adds exactly that
      field to the split. */
  lemma {:induction false} SplitSnoc(x: string, sep: char, f: string)
    requires sep !in f
    ensures Split(x + [sep] + f, sep) == Split(x, sep) + [f]
    decreases |x|
  {
    var s := x + [sep] + f;
    var kx := FieldEnd(x, sep);
    forall j | 0 <= j < kx
      ensures s[j] != sep
    {
      assert s[j] == x[j];
    }
    if kx == |x| {
      FieldEndUnique(s, sep, |x|);
      assert s[..kx] == x;
      assert s[kx + 1..] == f;
      FieldEndUnique(f, sep, |f|);
    } else {
      assert s[kx] == x[kx];
      FieldEndUnique(s, sep, kx);
      assert s[..kx] == x[..kx];
      assert s[kx + 1..] == x[kx + 1..] + [sep] + f;
      SplitSnoc(x[kx + 1..], sep, f);
    }
  }

  /** Two more fields after the separators add exactly those two fields. */
  lemma SplitSnocPair(x: string, sep: char, a: string, b: string)
    requires sep !in a && sep !in b
    ensures Split(x + [sep] + a + [sep] + b, sep) == Split(x, sep) + [a, b]
  {
    SplitSnoc(x, sep, a);
    SplitSnoc(x + [sep] + a, sep, b);
  }

  /** Eight separator-free fields joined by '/' split back into those fields. */
  lemma SplitEightFields(a0: string, a1: string, a2: string, a3: string,
                         a4: string, a5: string, a6: string, a7: string)
    requires '/' !in a0 && '/' !in a1 && '/' !in a2 && '/' !in a3
    requires '/' !in a4 && '/' !in a5 && '/' !in a6 && '/' !in a7
    ensures Split(a0 + "/" + a1 + "/" + a2 + "/" + a3 + "/" + a4 + "/" + a5 + "/" + a6 + "/" + a7, '/')
         == [a0, a1, a2, a3, a4, a5, a6, a7]
  {
    FieldEndUnique(a0, '/', |a0|);
    var x2 := a0 + "/" + a1 + "/" + a2;
    SplitSnocPair(a0, '/', a1, a2);
    assert Split(x2, '/') == [a0, a1, a2];
    var x4 := x2 + "/" + a3 + "/" + a4;
    SplitSnocPair(x2, '/', a3, a4);
    assert Split(x4, '/') == [a0, a1, a2, a3, a4];
    var x6 := x4 + "/" + a5 + "/" + a6;
    SplitSnocPair(x4, '/', a5, a6);
    assert Split(x6, '/') == [a0, a1, a2, a3, a4, a5, a6];
    SplitSnoc(x6, '/', a7);
  }
}
