/**
 * The brush expander `hexpand`: for every bounds in the definitions, the
 * input brushes expanded by those bounds, written to a file of their own
 * whose name comes from the input's name.
 */
module Hexpand {
  import opened Common

  const OutputExtension := ".ebr"
  const UsageMessage := "Usage: hexpand <input definitions specifier> <input brushes>"

  /** `main`: exactly two arguments after the program's name. */
  function ParseArgs(args: seq<string>): (r: Result<(string, string)>)
    ensures r.Ok? <==> |args| == 3
    ensures r.Ok? ==> r.value == (args[1], args[2])
    ensures r.Err? ==> r.error == UsageMessage
  {
    if |args| != 3 then Err(UsageMessage) else Ok((args[1], args[2]))
  }

  /**
   * The output stem: the input's name up to, not including, its first '.'
   * (or all of it when it has none), then '-'.
   */
  function OutputStem(input: string): (stem: string)
    ensures |stem| > 0 && stem[|stem| - 1] == '-'
    ensures IndexOf(input, '.').None? ==> stem == input + "-"
    ensures IndexOf(input, '.').Some? ==> stem == input[..IndexOf(input, '.').value] + "-"
    ensures forall k :: 0 <= k < |stem| - 1 ==> stem[k] != '.' && stem[k] == input[k]
  {
    match IndexOf(input, '.')
    case None => input + "-"
    case Some(k) => input[..k] + "-"
  }

  /** The file for bounds i: the stem, i in decimal, `.ebr`. */
  function OutputName(stem: string, i: nat): string
  {
    stem + NatToString(i) + OutputExtension
  }

  /** The stem of a name with no '.' and any extension after it is the name and '-'. */
  lemma StemOfExtended(name: string, ext: string)
    requires forall k :: 0 <= k < |name| ==> name[k] != '.'
    requires |ext| > 0 && ext[0] == '.'
    ensures OutputStem(name + ext) == name + "-"
  {
    var s := name + ext;
    assert s[|name|] == '.';
    assert forall k :: 0 <= k < |name| ==> s[k] == name[k];
    assert s[..|name|] == name;
  }

  /** Different bounds are written to different files. */
  lemma OutputNamesDistinct(stem: string, i: nat, j: nat)
    requires i != j
    ensures OutputName(stem, i) != OutputName(stem, j)
  {
    if OutputName(stem, i) == OutputName(stem, j) {
      var a := NatToString(i);
      var b := NatToString(j);
      assert stem + a + OutputExtension == stem + b + OutputExtension;
      assert |a| == |b|;
      assert a == (stem + a + OutputExtension)[|stem|..|stem| + |a|];
      assert b == (stem + b + OutputExtension)[|stem|..|stem| + |b|];
      DigitsOfNatToString(i);
      DigitsOfNatToString(j);
    }
  }

  /** One output of `run_expander`: a file name and the brushes written to it. */
  datatype Output<E> = Output(name: string, brushes: seq<E>)

  /** The input brushes expanded by bounds i, in order. */
  function ExpandedBy<B, E>(expand: (B, nat) -> E, brushes: seq<B>, i: nat): (r: seq<E>)
    ensures |r| == |brushes| && forall j :: 0 <= j < |brushes| ==> r[j] == expand(brushes[j], i)
  {
    seq(|brushes|, j requires 0 <= j < |brushes| => expand(brushes[j], i))
  }

  /** Fills a fresh array with the brushes expanded by bounds i. */
  method ExpandAll<B, E(0)>(expand: (B, nat) -> E, brushes: seq<B>, i: nat) returns (expanded: array<E>)
    ensures fresh(expanded)
    ensures expanded[..] == ExpandedBy(expand, brushes, i)
  {
    expanded := new E[|brushes|];
    for j := 0 to |brushes|
      invariant forall k :: 0 <= k < j ==> expanded[k] == expand(brushes[k], i)
    {
      expanded[j] := expand(brushes[j], i);
    }
  }

  /**
   * `run_expander`'s loop: for each bounds index in turn, every input brush
   * expanded by those bounds (the j-th output brush from the j-th input
   * brush), written under that index's file name. Loading and saving the
   * files, and the expansion itself, are the parameters.
   */
  method RunExpander<B, E(0)>(inputName: string, brushes: seq<B>, boundsCount: nat, expand: (B, nat) -> E)
    returns (outputs: seq<Output<E>>)
    ensures |outputs| == boundsCount
    ensures forall i :: 0 <= i < boundsCount ==>
      outputs[i] == Output(OutputName(OutputStem(inputName), i), ExpandedBy(expand, brushes, i))
  {
    var k := IndexOf(inputName, '.');
    var stem := if k.None? then inputName + "-" else inputName[..k.value] + "-";
    outputs := [];
    for i := 0 to boundsCount
      invariant |outputs| == i
      invariant forall b :: 0 <= b < i ==> outputs[b] == Output(OutputName(stem, b), ExpandedBy(expand, brushes, b))
    {
      var expanded := ExpandAll(expand, brushes, i);
      outputs := outputs + [Output(stem + NatToString(i) + OutputExtension, expanded[..])];
    }
  }
}
