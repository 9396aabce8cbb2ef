/** The `fields` request parameter: the selected column names joined with
    commas, as `Array.prototype.join(',')` renders them, and the split that
    reads such a list back. */
module FieldList {

  /** `names.join(',')`: the names in the given order, one comma between each
      neighbouring pair, no comma before the first or after the last. The
      value is exactly as long as the names plus one comma per gap, and it
      starts with the first name, followed by a comma when more names come. */
  function Join(names: seq<string>): (joined: string)
    ensures |names| > 0 ==> |joined| == TotalLength(names) + |names| - 1
    ensures |names| > 0 ==> names[0] <= joined
    ensures |names| > 1 ==> joined[|names[0]|] == ','
  {
    if |names| == 0 then ""
    else if |names| == 1 then names[0]
    else names[0] + "," + Join(names[1..])
  }

  /** `s.split(',')`: the maximal comma-free pieces of `s`, in order. Like
      the JavaScript method it never returns an empty sequence. */
  function Split(s: string): (pieces: seq<string>)
    ensures |pieces| > 0
    ensures forall i :: 0 <= i < |pieces| ==> ',' !in pieces[i]
  {
    if |s| == 0 then [""]
    else
      var rest := Split(s[1..]);
      if s[0] == ',' then [""] + rest
      else [[s[0]] + rest[0]] + rest[1..]
  }

  /** No name in the list contains the separator. */
  predicate CommaFree(names: seq<string>)
  {
    forall i :: 0 <= i < |names| ==> ',' !in names[i]
  }

  /** A comma-free piece followed by a comma splits off as the first piece. */
  lemma {:induction false} SplitAfterPiece(a: string, rest: string)
    requires ',' !in a
    ensures Split(a + "," + rest) == [a] + Split(rest)
    decreases |a|
  {
    if |a| == 0 {
      assert a + "," + rest == [','] + rest;
      assert ([','] + rest)[1..] == rest;
    } else {
      var tail := a[1..] + "," + rest;
      assert a + "," + rest == [a[0]] + tail;
      assert ([a[0]] + tail)[1..] == tail;
      SplitAfterPiece(a[1..], rest);
      assert [a[0]] + a[1..] == a;
    }
  }

  /** A comma-free string is a single piece. */
  lemma {:induction false} SplitPiece(a: string)
    requires ',' !in a
    ensures Split(a) == [a]
    decreases |a|
  {
    if |a| > 0 {
      SplitPiece(a[1..]);
      assert [a[0]] + a[1..] == a;
    }
  }

  /** Joining a non-empty list of comma-free names and splitting the result
      gives back exactly the same names in the same order: the joined
      parameter loses neither a name nor the order of the columns. */
  lemma {:induction false} SplitJoin(names: seq<string>)
    requires |names| > 0
    requires CommaFree(names)
    ensures Split(Join(names)) == names
    decreases |names|
  {
    if |names| == 1 {
      SplitPiece(names[0]);
    } else {
      assert ',' !in names[0];
      SplitAfterPiece(names[0], Join(names[1..]));
      assert CommaFree(names[1..]) by {
        forall i | 0 <= i < |names[1..]|
          ensures ',' !in names[1..][i]
        {
          assert names[1..][i] == names[i + 1];
        }
      }
      SplitJoin(names[1..]);
      assert [names[0]] + names[1..] == names;
    }
  }

  /** The sum of the lengths of the names. */
  function TotalLength(names: seq<string>): (total: nat)
  {
    if |names| == 0 then 0 else |names[0]| + TotalLength(names[1..])
  }
}
