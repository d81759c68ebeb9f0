/** The two string operations of Ruby's core library that the plugin relies on:
    `Array#join` and `String#split` with a one-character separator. */
module Text {

  /** `xs.join(sep)`: the parts with `sep` between neighbours. */
  function Join(xs: seq<string>, sep: string): string {
    if |xs| == 0 then ""
    else if |xs| == 1 then xs[0]
    else xs[0] + sep + Join(xs[1..], sep)
  }

  /** Every field between separators, empty ones included: the split before
      Ruby drops trailing empty fields. */
  function SplitAll(s: string, c: char): (r: seq<string>)
    ensures |r| >= 1
    decreases |s|
  {
    if s == [] then [""]
    else
      var rest := SplitAll(s[1..], c);
      if s[0] == c then [""] + rest
      else [[s[0]] + rest[0]] + rest[1..]
  }

  /** Drops empty strings from the end of `xs`. */
  function DropTrailingEmpty(xs: seq<string>): (r: seq<string>)
    ensures |r| <= |xs| && r == xs[..|r|]
    ensures r == [] || r[|r| - 1] != ""
    ensures forall i | |r| <= i < |xs| :: xs[i] == ""
  {
    if xs != [] && xs[|xs| - 1] == "" then DropTrailingEmpty(xs[..|xs| - 1]) else xs
  }

  /** `s.split(c)` for a one-character separator `c`: the fields between
      separators, with trailing empty fields removed. */
  function Split(s: string, c: char): seq<string> {
    DropTrailingEmpty(SplitAll(s, c))
  }

  /** The fields of `SplitAll` hold no separator and, joined back with it,
      give the original string. */
  lemma {:induction false} JoinSplitAll(s: string, c: char)
    ensures Join(SplitAll(s, c), [c]) == s
    ensures forall i | 0 <= i < |SplitAll(s, c)| :: c !in SplitAll(s, c)[i]
    decreases |s|
  {
    if s != [] {
      var rest := SplitAll(s[1..], c);
      JoinSplitAll(s[1..], c);
      if s[0] == c {
        assert SplitAll(s, c) == [""] + rest;
        assert Join([""] + rest, [c]) == "" + [c] + Join(rest, [c]);
        assert s == [s[0]] + s[1..];
      } else {
        var r := SplitAll(s, c);
        assert r == [[s[0]] + rest[0]] + rest[1..];
        if |rest| == 1 {
          assert Join(r, [c]) == [s[0]] + rest[0];
        } else {
          assert Join(rest, [c]) == rest[0] + [c] + Join(rest[1..], [c]);
          assert r[1..] == rest[1..];
          assert Join(r, [c]) == [s[0]] + rest[0] + [c] + Join(rest[1..], [c]);
        }
        assert s == [s[0]] + s[1..];
        forall i | 0 <= i < |r| ensures c !in r[i] {
          if i == 0 {
            assert c !in rest[0];
          } else {
            assert r[i] == rest[i];
          }
        }
      }
    }
  }

  /** Joining parts that hold no separator and splitting the result again
      gives back the parts. */
  lemma {:induction false} SplitAllJoin(xs: seq<string>, c: char)
    requires |xs| >= 1
    requires forall i | 0 <= i < |xs| :: c !in xs[i]
    ensures SplitAll(Join(xs, [c]), c) == xs
    decreases |xs|, |xs[0]|
  {
    if |xs| == 1 {
      SplitAllOfPlain(xs[0], c);
    } else if xs[0] == [] {
      var tail := Join(xs[1..], [c]);
      assert Join(xs, [c]) == [c] + tail;
      SplitAllJoin(xs[1..], c);
      assert ([c] + tail)[1..] == tail;
      assert xs == [""] + xs[1..];
    } else {
      var head := xs[0];
      var ys := [head[1..]] + xs[1..];
      forall i | 0 <= i < |ys| ensures c !in ys[i] {
        if i == 0 {
          assert forall ch | ch in head[1..] :: ch in head;
        } else {
          assert ys[i] == xs[i];
        }
      }
      SplitAllJoin(ys, c);
      assert ys[1..] == xs[1..];
      var s := Join(xs, [c]);
      assert s == head + [c] + Join(xs[1..], [c]);
      assert Join(ys, [c]) == head[1..] + [c] + Join(xs[1..], [c]);
      assert s[0] == head[0] && s[0] != c;
      assert s[1..] == Join(ys, [c]);
      assert head == [head[0]] + head[1..];
      assert xs == [[head[0]] + head[1..]] + ys[1..];
    }
  }

  /** A string without the separator is one field. */
  lemma {:induction false} SplitAllOfPlain(s: string, c: char)
    requires c !in s
    ensures SplitAll(s, c) == [s]
    decreases |s|
  {
    if s != [] {
      assert c !in s[1..] by {
        assert forall ch | ch in s[1..] :: ch in s;
      }
      SplitAllOfPlain(s[1..], c);
      assert s == [s[0]] + s[1..];
    }
  }

  /** `split` undoes `join` when no part holds the separator and the last
      part is not empty. */
  lemma SplitJoin(xs: seq<string>, c: char)
    requires |xs| >= 1 && xs[|xs| - 1] != ""
    requires forall i | 0 <= i < |xs| :: c !in xs[i]
    ensures Split(Join(xs, [c]), c) == xs
  {
    SplitAllJoin(xs, c);
  }
}
