/** Sequence helpers shared by both components: element-wise mapping
    (Java's `stream().map(...).collect(...)`, Python's list comprehension)
    and string joining (Python's `sep.join(parts)`). */
module Seqs {

  /** Applies `f` to every element, keeping length and order. */
  function Map<A, B>(f: A -> B, s: seq<A>): (r: seq<B>)
    ensures |r| == |s|
    ensures forall i :: 0 <= i < |s| ==> r[i] == f(s[i])
  {
    if |s| == 0 then [] else [f(s[0])] + Map(f, s[1..])
  }

  /** `sep.join(parts)`: the parts in order, with `sep` between neighbours. */
  function Join(sep: string, parts: seq<string>): string
  {
    if |parts| == 0 then ""
    else if |parts| == 1 then parts[0]
    else parts[0] + sep + Join(sep, parts[1..])
  }

  /** `s.split(c)`: the maximal runs of `s` free of `c`, in order. */
  function Split(c: char, s: string): (r: seq<string>)
    ensures |r| > 0
    decreases |s|
  {
    if |s| == 0 then [""]
    else if s[0] == c then [""] + Split(c, s[1..])
    else
      var rest := Split(c, s[1..]);
      [[s[0]] + rest[0]] + rest[1..]
  }

  /** Splitting at `c` undoes joining with `c`, provided no part contains
      `c`: the joined string loses no information about its parts. */
  lemma {:induction false} SplitJoin(c: char, parts: seq<string>)
    requires |parts| > 0
    requires forall i :: 0 <= i < |parts| ==> c !in parts[i]
    ensures Split(c, Join([c], parts)) == parts
    decreases |parts|, |parts[0]|
  {
    if |parts[0]| > 0 {
      var p := parts[0];
      var tailParts := [p[1..]] + parts[1..];
      assert Join([c], parts) == [p[0]] + Join([c], tailParts) by {
        if |parts| == 1 {
        } else {
          assert Join([c], tailParts) == p[1..] + [c] + Join([c], parts[1..]) by {
            assert tailParts[1..] == parts[1..];
          }
        }
      }
      forall i | 0 <= i < |tailParts| ensures c !in tailParts[i] {
        if i > 0 { assert tailParts[i] == parts[i]; }
      }
      SplitJoin(c, tailParts);
      assert [p[0]] + tailParts[0] == p;
      assert parts == [p] + tailParts[1..];
    } else if |parts| == 1 {
    } else {
      assert Join([c], parts) == [c] + Join([c], parts[1..]) by {
        assert parts[0] == "";
      }
      SplitJoin(c, parts[1..]);
      assert parts == [""] + parts[1..];
    }
  }
}
