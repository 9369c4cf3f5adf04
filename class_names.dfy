/**
 * The catalogue front end's class-name helpers: `clsx` keeps the given class
 * names that are neither undefined nor empty and joins them with spaces;
 * `cn` passes its arguments on to it.
 */
module ClassNames {
  import opened Wrappers
  import opened Strings

  /** `inputs.filter(Boolean)`: undefined and "" are the falsy inputs. */
  function Present(inputs: seq<Option<string>>): (ps: seq<string>)
    ensures |ps| <= |inputs|
    ensures forall i :: 0 <= i < |ps| ==> ps[i] != "" && Some(ps[i]) in inputs
  {
    if inputs == [] then []
    else if inputs[0].Some? && inputs[0].value != "" then [inputs[0].value] + Present(inputs[1..])
    else Present(inputs[1..])
  }

  /** `clsx(...inputs)`. */
  function Clsx(inputs: seq<Option<string>>): (r: string)
    ensures r == "" <==> Present(inputs) == []
  {
    Join(Present(inputs), " ")
  }

  /** `cn(...inputs)`: the same result as `clsx` for every argument list. */
  function Cn(inputs: seq<Option<string>>): (r: string)
    ensures r == Clsx(inputs)
    ensures (forall i :: 0 <= i < |inputs| ==> inputs[i] == None || inputs[i] == Some("")) ==> r == ""
  {
    AllFalsyIsEmpty(inputs);
    Clsx(inputs)
  }

  /** With no inputs, or only falsy ones, the result is the empty string. */
  lemma {:induction false} AllFalsyIsEmpty(inputs: seq<Option<string>>)
    ensures (forall i :: 0 <= i < |inputs| ==> inputs[i] == None || inputs[i] == Some("")) ==> Clsx(inputs) == ""
  {
    if inputs != [] && (forall i :: 0 <= i < |inputs| ==> inputs[i] == None || inputs[i] == Some("")) {
      assert forall i :: 0 <= i < |inputs[1..]| ==> inputs[1..][i] == inputs[i + 1];
      AllFalsyIsEmpty(inputs[1..]);
    }
  }

  /** Present inputs keep their order: the kept names of a concatenation are those of each part. */
  lemma {:induction false} PresentAppend(a: seq<Option<string>>, b: seq<Option<string>>)
    ensures Present(a + b) == Present(a) + Present(b)
    decreases |a|
  {
    if a == [] {
      assert a + b == b;
    } else {
      assert (a + b)[0] == a[0];
      assert (a + b)[1..] == a[1..] + b;
      PresentAppend(a[1..], b);
    }
  }

  /** A single argument is kept iff it is truthy. */
  lemma PresentSingle(x: Option<string>)
    ensures Present([x]) == if x.Some? && x.value != "" then [x.value] else []
  {
    assert [x][1..] == [];
  }

  /**
   * Splitting the result at spaces gives back exactly the truthy inputs, in
   * order, when none of them holds a space: only single spaces were added.
   */
  lemma ClsxSplits(inputs: seq<Option<string>>)
    requires Present(inputs) != []
    requires forall i :: 0 <= i < |inputs| ==> inputs[i].Some? ==> NoChar(inputs[i].value, ' ')
    ensures Split(Clsx(inputs), ' ') == Present(inputs)
  {
    var ps := Present(inputs);
    forall i | 0 <= i < |ps| ensures NoChar(ps[i], ' ') {
      var k :| 0 <= k < |inputs| && inputs[k] == Some(ps[i]);
    }
    assert " " == [' '];
    SplitJoin(ps, ' ');
  }
}
