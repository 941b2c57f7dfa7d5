/**
 * Map-wide commands (`MapCommands`): one command per brush for which it is
 * valid, gathered into a single sequence command.
 */
module MapCommands {
  import opened Common
  import opened Brushes

  /** `Command.Seq(commands, description)`: the commands run in order, under one description. */
  datatype SeqCommand<C> = SeqCommand(commands: seq<C>, description: string)

  const MapTranslation := "Map Translation"

  /** The commands the functor gives, in brush order, leaving out the brushes it gives none for. */
  function Issued<B, C>(f: B -> Option<C>, bs: seq<B>): seq<C>
  {
    if |bs| == 0 then []
    else Issued(f, bs[..|bs| - 1]) + (match f(bs[|bs| - 1]) case Some(c) => [c] case None => [])
  }

  /** Issuing commands for two runs of brushes issues those of the first, then those of the second. */
  lemma {:induction false} IssuedAppend<B, C>(f: B -> Option<C>, a: seq<B>, b: seq<B>)
    ensures Issued(f, a + b) == Issued(f, a) + Issued(f, b)
    decreases |b|
  {
    if |b| == 0 {
      assert a + b == a;
    } else {
      var n := |b|;
      assert (a + b)[..|a + b| - 1] == a + b[..n - 1];
      assert (a + b)[|a + b| - 1] == b[n - 1];
      IssuedAppend(f, a, b[..n - 1]);
    }
  }

  /** No command is issued exactly when the functor gives none for every brush. */
  lemma {:induction false} IssuedEmpty<B, C>(f: B -> Option<C>, bs: seq<B>)
    ensures |Issued(f, bs)| == 0 <==> forall i :: 0 <= i < |bs| ==> f(bs[i]).None?
  {
    if |bs| > 0 {
      var n := |bs|;
      IssuedEmpty(f, bs[..n - 1]);
      assert forall i :: 0 <= i < n - 1 ==> bs[..n - 1][i] == bs[i];
    }
  }

  /** c is the functor's command for one of the brushes. */
  ghost predicate CommandOfSome<B, C>(f: B -> Option<C>, bs: seq<B>, c: C)
  {
    exists i :: 0 <= i < |bs| && f(bs[i]) == Some(c)
  }

  /** Every command issued is the functor's command for some brush. */
  lemma {:induction false} IssuedFrom<B, C>(f: B -> Option<C>, bs: seq<B>)
    ensures forall k :: 0 <= k < |Issued(f, bs)| ==> CommandOfSome(f, bs, Issued(f, bs)[k])
  {
    if |bs| > 0 {
      var n := |bs|;
      var head := Issued(f, bs[..n - 1]);
      IssuedFrom(f, bs[..n - 1]);
      forall k | 0 <= k < |Issued(f, bs)| ensures CommandOfSome(f, bs, Issued(f, bs)[k]) {
        if k < |head| {
          assert CommandOfSome(f, bs[..n - 1], head[k]);
          var i :| 0 <= i < n - 1 && f(bs[..n - 1][i]) == Some(head[k]);
          assert bs[..n - 1][i] == bs[i] && Issued(f, bs)[k] == head[k];
          assert f(bs[i]) == Some(Issued(f, bs)[k]);
        } else {
          assert Issued(f, bs) == head + [f(bs[n - 1]).value];
          assert f(bs[n - 1]) == Some(Issued(f, bs)[k]);
        }
      }
    }
  }

  /**
   * `for_all_brushes`: asks the functor for each brush in turn and keeps
   * the commands it gives; none at all means no command (null).
   */
  method ForAllBrushes<B, C>(brushes: seq<B>, description: string, f: B -> Option<C>) returns (r: Option<SeqCommand<C>>)
    ensures r.None? <==> forall i :: 0 <= i < |brushes| ==> f(brushes[i]).None?
    ensures r.Some? ==> r.value == SeqCommand(Issued(f, brushes), description) && |r.value.commands| > 0
  {
    var commands: seq<C> := [];
    for i := 0 to |brushes|
      invariant commands == Issued(f, brushes[..i])
    {
      var c := f(brushes[i]);
      assert brushes[..i + 1][..i] == brushes[..i];
      if c.Some? {
        commands := commands + [c.value];
      }
    }
    assert brushes[..|brushes|] == brushes;
    IssuedEmpty(f, brushes);
    if |commands| > 0 {
      r := Some(SeqCommand(commands, description));
    } else {
      r := None;
    }
  }

  /** A translation command bound to the brush it moves. */
  datatype BrushTranslation<B> = BrushTranslation(brush: B, command: TranslationCommand)

  /**
   * `translate_map`'s functor: a brush that is a `ResizableTranslatableBrush`
   * gets its translation command; any other brush gets none.
   */
  function TranslationOf<B>(resizable: B -> bool, offset: Vec3): B -> Option<BrushTranslation<B>>
  {
    b => if resizable(b) then Some(BrushTranslation(b, TranslationCommandOf(offset))) else None
  }

  /** What translating a map issues: for each resizable brush in order, the translation by the offset. */
  lemma {:induction false} TranslationsIssued<B>(resizable: B -> bool, offset: Vec3, bs: seq<B>)
    ensures var ts := Issued(TranslationOf(resizable, offset), bs); var ks := Kept(resizable, bs);
      |ts| == |ks| && forall k :: 0 <= k < |ts| ==> ts[k] == BrushTranslation(ks[k], TranslationCommandOf(offset))
  {
    if |bs| > 0 {
      var n := |bs|;
      var f := TranslationOf(resizable, offset);
      TranslationsIssued(resizable, offset, bs[..n - 1]);
      var b := bs[n - 1];
      assert f(b) == if resizable(b) then Some(BrushTranslation(b, TranslationCommandOf(offset))) else None;
    }
  }

  /**
   * `translate_map`: one command translating every resizable brush by the
   * offset, described as "Map Translation", or none when no brush is resizable.
   */
  method TranslateMap<B>(brushes: seq<B>, resizable: B -> bool, offset: Vec3) returns (r: Option<SeqCommand<BrushTranslation<B>>>)
    ensures r.None? <==> forall i :: 0 <= i < |brushes| ==> !resizable(brushes[i])
    ensures r.Some? ==> r.value.description == MapTranslation && r.value.commands == Issued(TranslationOf(resizable, offset), brushes)
  {
    r := ForAllBrushes(brushes, MapTranslation, TranslationOf(resizable, offset));
  }
}
