/**
 * The part of prettier's document language that the printer builds: text,
 * a forced line break (`hardline`), a concatenation (a doc array) and an
 * indentation scope (`indent`). Documents are only built here, never
 * rendered; `Leaves` gives the order in which a renderer meets the text and
 * the line breaks of a document.
 */
module PrettierDoc {

  datatype Doc = Text(text: string) | Hardline | Concat(parts: seq<Doc>) | Indent(contents: Doc)

  /**
   * The parts of `join(sep, docs)`: the docs in order with `sep` between
   * each two consecutive ones, and nothing before the first or after the last.
   */
  function Interleave(sep: Doc, docs: seq<Doc>): (r: seq<Doc>)
    ensures |r| == if docs == [] then 0 else 2 * |docs| - 1
    ensures forall i :: 0 <= i < |docs| ==> r[2 * i] == docs[i]
    ensures forall i :: 0 <= i < |docs| - 1 ==> r[2 * i + 1] == sep
  {
    if |docs| <= 1 then docs
    else
      var rest := Interleave(sep, docs[1..]);
      var r := [docs[0], sep] + rest;
      assert forall i :: 0 <= i < |docs| - 1 ==> r[2 * i + 1] == sep by {
        forall i | 0 < i < |docs| - 1 ensures r[2 * i + 1] == sep {
          assert r[2 * i + 1] == rest[2 * (i - 1) + 1];
        }
      }
      r
  }

  /** prettier's `join(sep, docs)`, which returns the interleaved array. */
  function Join(sep: Doc, docs: seq<Doc>): Doc {
    Concat(Interleave(sep, docs))
  }

  /** A document with its concatenations flattened: text, hardlines and indent scopes in order. */
  function Leaves(d: Doc): seq<Doc> {
    match d
    case Concat(parts) => LeavesOf(parts)
    case _ => [d]
  }

  function LeavesOf(ds: seq<Doc>): seq<Doc> {
    if ds == [] then [] else Leaves(ds[0]) + LeavesOf(ds[1..])
  }

  /** Flattening distributes over putting two doc arrays side by side. */
  lemma {:induction false} LeavesOfAppend(a: seq<Doc>, b: seq<Doc>)
    ensures LeavesOf(a + b) == LeavesOf(a) + LeavesOf(b)
  {
    if a == [] {
      assert a + b == b;
    } else {
      assert (a + b)[1..] == a[1..] + b;
      LeavesOfAppend(a[1..], b);
    }
  }

  /**
   * Joining docs that are not concatenations with a separator that flattens to
   * one leaf `s` flattens to those docs with `s` between each two of them.
   */
  lemma {:induction false} LeavesOfInterleave(sep: Doc, s: Doc, docs: seq<Doc>)
    requires Leaves(sep) == [s]
    requires forall i :: 0 <= i < |docs| ==> !docs[i].Concat?
    ensures LeavesOf(Interleave(sep, docs)) == Interleave(s, docs)
  {
    if |docs| > 1 {
      var rest := Interleave(sep, docs[1..]);
      LeavesOfAppend([docs[0], sep], rest);
      assert LeavesOf([docs[0], sep]) == [docs[0], s] by {
        assert [docs[0], sep][1..] == [sep];
        assert LeavesOf([sep]) == Leaves(sep) + LeavesOf([]);
      }
      LeavesOfInterleave(sep, s, docs[1..]);
    } else if |docs| == 1 {
      assert LeavesOf(docs) == Leaves(docs[0]) + LeavesOf([]);
    }
  }

  /** A two-element doc array flattens to the leaves of its first element, then of its second. */
  lemma LeavesOfPair(a: Doc, b: Doc)
    ensures LeavesOf([a, b]) == Leaves(a) + Leaves(b)
  {
    assert [a, b][1..] == [b];
    assert LeavesOf([b]) == Leaves(b) + LeavesOf([]);
  }
}
