/**
 * Template literals. A prompt template is a sequence of fixed text and of
 * slots (`${request.field}`); rendering writes each slot's value in place,
 * verbatim, with no escaping.
 */
module Templates {
  import opened Text

  datatype Piece<F> = Lit(text: string) | Slot(field: F)

  type Template<F> = seq<Piece<F>>

  function PieceText<F>(p: Piece<F>, value: F -> string): string
  {
    match p
    case Lit(text) => text
    case Slot(f) => value(f)
  }

  /** The texts of the pieces, in order. */
  function PieceTexts<F>(t: Template<F>, value: F -> string): (r: seq<string>)
    ensures |r| == |t|
  {
    seq(|t|, i requires 0 <= i < |t| => PieceText(t[i], value))
  }

  /** The texts joined together, first to last. */
  function Concat(parts: seq<string>): string
    decreases |parts|
  {
    if parts == [] then "" else parts[0] + Concat(parts[1..])
  }

  lemma {:induction false} ConcatAppend(a: seq<string>, b: seq<string>)
    ensures Concat(a + b) == Concat(a) + Concat(b)
    decreases |a|
  {
    if a == [] {
      assert a + b == b;
    } else {
      assert (a + b)[0] == a[0];
      assert (a + b)[1..] == a[1..] + b;
      ConcatAppend(a[1..], b);
    }
  }

  /** The template with every piece written out: fixed text as is, each slot as its value. */
  function Render<F>(t: Template<F>, value: F -> string): string
  {
    Concat(PieceTexts(t, value))
  }

  lemma RenderAppend<F>(t: Template<F>, u: Template<F>, value: F -> string)
    ensures Render(t + u, value) == Render(t, value) + Render(u, value)
  {
    assert PieceTexts(t + u, value) == PieceTexts(t, value) + PieceTexts(u, value);
    ConcatAppend(PieceTexts(t, value), PieceTexts(u, value));
  }

  /** Every slot of the template is written out verbatim in the rendered text. */
  lemma RenderContainsSlot<F>(t: Template<F>, value: F -> string, f: F)
    requires Slot(f) in t
    ensures Contains(Render(t, value), value(f))
  {
    var i :| 0 <= i < |t| && t[i] == Slot(f);
    var parts := PieceTexts(t, value);
    var a, b := parts[..i], parts[i + 1..];
    assert parts == (a + [value(f)]) + b;
    ConcatAppend(a + [value(f)], b);
    ConcatAppend(a, [value(f)]);
    assert [value(f)][1..] == [];
    assert Render(t, value) == Concat(a) + value(f) + Concat(b);
    ContainsMiddle(Concat(a), value(f), Concat(b));
  }

  /** The rendered text depends on the values of the template's own slots and on nothing else. */
  lemma RenderDeterminedBySlots<F>(t: Template<F>, v1: F -> string, v2: F -> string)
    requires forall f :: Slot(f) in t ==> v1(f) == v2(f)
    ensures Render(t, v1) == Render(t, v2)
  {
    forall i | 0 <= i < |t| ensures PieceText(t[i], v1) == PieceText(t[i], v2) {
      assert t[i] in t;
    }
    assert PieceTexts(t, v1) == PieceTexts(t, v2);
  }
}
