/** The metadata extractor of plugins/inputs/bigbluebutton/xml.go.

    `xmlToMap` walks the token stream of an XML fragment and folds it into a
    flat map from element local name to text. The tokenizer is a library and
    is not modelled: its output is given as a sequence of tokens, and the end
    of the sequence stands for the end of input (io.EOF). */
module Xml {

  /** What the decoder's `Token()` can hand back. `Other` stands for comments,
      processing instructions and directives; `Error` for a syntax error. */
  datatype Token =
    | CharData(text: string)
    | StartElement(local: string)
    | EndElement(local: string)
    | Other
    | Error

  /** The result of `xmlToMap`: the map it returns, or the run-time panic
      caused by `values[len(values)-1]` on an empty buffer. */
  datatype Extraction = Extracted(bindings: map<string, string>) | IndexOutOfRange

  /** The loop state of `xmlToMap`: the map `m` and the text buffer `values`. */
  datatype Scan = Scanning(m: map<string, string>, values: seq<string>) | Crashed

  /** One iteration of the loop body on one token. The buffer is only ever
      appended to: re-slicing it as a whole leaves it as it was. */
  function Step(s: Scan, t: Token): Scan
  {
    match s
    case Crashed => Crashed
    case Scanning(m, values) =>
      match t
      case CharData(text) => Scanning(m, values + [text])
      case EndElement(name) =>
        if |values| == 0 then Crashed else Scanning(m[name := values[|values| - 1]], values)
      case _ => s
  }

  /** The loop run over a whole (error-free) token stream. */
  function Run(ts: seq<Token>): Scan
  {
    if ts == [] then Scanning(map[], []) else Step(Run(ts[..|ts| - 1]), ts[|ts| - 1])
  }

  /** The index of the first decoder error, or the length of the stream. */
  function StopIndex(ts: seq<Token>): (k: nat)
    ensures k <= |ts|
    ensures forall j :: 0 <= j < k ==> !ts[j].Error?
    ensures k < |ts| ==> ts[k].Error?
  {
    if ts == [] || ts[0].Error? then 0 else 1 + StopIndex(ts[1..])
  }

  /** The tokens the loop consumes before its condition `err == nil` fails. */
  function Processed(ts: seq<Token>): (p: seq<Token>)
    ensures |p| <= |ts| && p == ts[..|p|]
    ensures forall j :: 0 <= j < |p| ==> !p[j].Error?
    ensures |p| < |ts| ==> ts[|p|].Error?
  {
    ts[..StopIndex(ts)]
  }

  /** What `xmlToMap` does to a token stream. */
  function Extract(ts: seq<Token>): Extraction
  {
    match Run(Processed(ts))
    case Crashed => IndexOutOfRange
    case Scanning(m, _) => Extracted(m)
  }

  /** The bindings of an extraction, with the empty map for the crashed run. */
  function BindingsOf(e: Extraction): map<string, string>
  {
    if e.Extracted? then e.bindings else map[]
  }

  /** xmlToMap: the token loop, returning the map or the index panic. */
  method XmlToMap(tokens: seq<Token>) returns (r: Extraction)
    ensures r == Extract(tokens)
  {
    var m: map<string, string> := map[];
    var values: seq<string> := [];
    var i := 0;
    while i < |tokens| && !tokens[i].Error?
      invariant 0 <= i <= |tokens|
      invariant forall j :: 0 <= j < i ==> !tokens[j].Error?
      invariant Run(tokens[..i]) == Scanning(m, values)
    {
      assert tokens[..i + 1][..i] == tokens[..i];
      match tokens[i] {
        case CharData(text) =>
          values := values + [text];
        case EndElement(name) =>
          if |values| == 0 {
            CrashIsFinal(tokens, i + 1, StopIndex(tokens));
            return IndexOutOfRange;
          }
          m := m[name := values[|values| - 1]];
          values := values[..];
        case _ =>
      }
      i := i + 1;
    }
    return Extracted(m);
  }

  /** Once the loop has crashed on a prefix, it has crashed on every longer prefix. */
  lemma {:induction false} CrashIsFinal(ts: seq<Token>, i: nat, k: nat)
    requires i <= k <= |ts|
    requires Run(ts[..i]).Crashed?
    ensures Run(ts[..k]).Crashed?
    decreases k - i
  {
    if i < k {
      assert ts[..i + 1][..i] == ts[..i];
      CrashIsFinal(ts, i + 1, k);
    }
  }

  // ---------------------------------------------------------------------
  // A reference description of the fold, independent of its loop state.

  /** The texts of all CharData tokens, in order. */
  function Texts(ts: seq<Token>): (r: seq<string>)
    ensures |r| <= |ts|
  {
    if ts == [] then []
    else
      var last := ts[|ts| - 1];
      Texts(ts[..|ts| - 1]) + (if last.CharData? then [last.text] else [])
  }

  /** The local names of all EndElement tokens. */
  function EndNames(ts: seq<Token>): set<string>
  {
    set j | 0 <= j < |ts| && ts[j].EndElement? :: ts[j].local
  }

  /** Some EndElement comes before any CharData. */
  predicate EndBeforeText(ts: seq<Token>)
  {
    exists j :: 0 <= j < |ts| && ts[j].EndElement? && Texts(ts[..j]) == []
  }

  /** No EndElement after position j closes the element named n. */
  predicate LastEndOf(ts: seq<Token>, j: int, n: string)
  {
    0 <= j < |ts| && ts[j] == EndElement(n) && forall l :: j < l < |ts| ==> ts[l] != EndElement(n)
  }

  /** The buffer is never cleared: it holds every text seen so far. */
  lemma {:induction false} RunValues(ts: seq<Token>)
    requires Run(ts).Scanning?
    ensures Run(ts).values == Texts(ts)
  {
    if ts != [] {
      RunValues(ts[..|ts| - 1]);
    }
  }

  /** The loop crashes exactly when some EndElement precedes every CharData. */
  lemma {:induction false} RunCrashes(ts: seq<Token>)
    ensures Run(ts).Crashed? <==> EndBeforeText(ts)
  {
    if ts != [] {
      var n := |ts| - 1;
      var init := ts[..n];
      RunCrashes(init);
      forall j | 0 <= j < n
        ensures init[j] == ts[j] && init[..j] == ts[..j]
      {
      }
      if Run(init).Crashed? {
        var j :| 0 <= j < |init| && init[j].EndElement? && Texts(init[..j]) == [];
        assert ts[j].EndElement? && Texts(ts[..j]) == [];
      } else {
        RunValues(init);
        if EndBeforeText(ts) {
          var j :| 0 <= j < |ts| && ts[j].EndElement? && Texts(ts[..j]) == [];
          assert ts[..j] == init;
        }
        if ts[n].EndElement? && Texts(init) == [] {
          assert ts[..n] == init;
        }
      }
    }
  }

  /** The result's keys are exactly the names of the EndElements seen. */
  lemma {:induction false} RunKeys(ts: seq<Token>)
    requires Run(ts).Scanning?
    ensures Run(ts).m.Keys == EndNames(ts)
  {
    if ts != [] {
      var n := |ts| - 1;
      var init := ts[..n];
      assert Run(init).Scanning?;
      RunKeys(init);
      forall j | 0 <= j < n
        ensures init[j] == ts[j]
      {
      }
      var extra := if ts[n].EndElement? then {ts[n].local} else {};
      assert EndNames(ts) == EndNames(init) + extra;
    }
  }

  /** The binding of a name is the last text seen before its last EndElement,
      whether or not that text lay inside the element. */
  lemma {:induction false} RunBinding(ts: seq<Token>, j: nat, n: string)
    requires Run(ts).Scanning?
    requires LastEndOf(ts, j, n)
    ensures |Texts(ts[..j])| > 0
    ensures n in Run(ts).m
    ensures Run(ts).m[n] == Texts(ts[..j])[|Texts(ts[..j])| - 1]
  {
    var k := |ts| - 1;
    var init := ts[..k];
    assert Run(init).Scanning?;
    if j == k {
      assert init == ts[..j];
      RunValues(init);
    } else {
      assert LastEndOf(init, j, n) by {
        forall l | j < l < |init| ensures init[l] != EndElement(n) {
          assert init[l] == ts[l];
        }
      }
      assert init[..j] == ts[..j];
      RunBinding(init, j, n);
    }
  }

  // ---------------------------------------------------------------------
  // Properties of xmlToMap.

  /** The empty stream, and a stream whose first read fails, give the empty map. */
  lemma EmptyExtraction(ts: seq<Token>)
    requires ts == [] || ts[0].Error?
    ensures Extract(ts) == Extracted(map[])
  {
    assert Processed(ts) == [];
  }

  /** The outcome of xmlToMap, described without its loop state. */
  lemma ExtractCharacterized(ts: seq<Token>)
    ensures Extract(ts).IndexOutOfRange? <==> EndBeforeText(Processed(ts))
    ensures Extract(ts).Extracted? ==> Extract(ts).bindings.Keys == EndNames(Processed(ts))
    ensures Extract(ts).Extracted? ==>
      forall j, n :: LastEndOf(Processed(ts), j, n) ==>
        var seen := Texts(Processed(ts)[..j]);
        |seen| > 0 && Extract(ts).bindings[n] == seen[|seen| - 1]
  {
    var p := Processed(ts);
    RunCrashes(p);
    if Run(p).Scanning? {
      RunKeys(p);
      forall j, n | LastEndOf(p, j, n)
        ensures var seen := Texts(p[..j]); |seen| > 0 && Run(p).m[n] == seen[|seen| - 1]
      {
        RunBinding(p, j, n);
      }
    }
  }

  /** Decoding stops at the first error, and the map built so far is returned. */
  lemma StopsAtError(a: seq<Token>, b: seq<Token>)
    requires forall j :: 0 <= j < |a| ==> !a[j].Error?
    ensures Extract(a + [Error] + b) == Extract(a)
  {
    var ts := a + [Error] + b;
    assert ts[|a|].Error?;
    assert Processed(ts) == a;
    assert Processed(a) == a;
  }

  /** Inserting a token that is neither CharData nor EndElement anywhere in an
      error-free stream changes nothing. */
  lemma {:induction false} RunIgnores(a: seq<Token>, t: Token, b: seq<Token>)
    requires !t.CharData? && !t.EndElement?
    ensures Run(a + [t] + b) == Run(a + b)
    decreases |b|
  {
    if b == [] {
      assert (a + [t] + b)[..|a|] == a;
      assert a + b == a;
    } else {
      var b' := b[..|b| - 1];
      RunIgnores(a, t, b');
      assert (a + [t] + b)[..|a + [t] + b| - 1] == a + [t] + b';
      assert (a + b)[..|a + b| - 1] == a + b';
    }
  }

  /** A StartElement or an `Other` token leaves the result unchanged. */
  lemma Ignores(a: seq<Token>, t: Token, b: seq<Token>)
    requires t.StartElement? || t.Other?
    ensures Extract(a + [t] + b) == Extract(a + b)
  {
    var ab := a + b;
    var atb := a + [t] + b;
    var k := StopIndex(ab);
    if k < |a| {
      assert atb[k] == ab[k];
      forall j | 0 <= j < k ensures !atb[j].Error? { assert atb[j] == ab[j]; }
      assert StopIndex(atb) == k;
      assert Processed(atb) == Processed(ab);
    } else {
      forall j | 0 <= j < k + 1 ensures !atb[j].Error? {
        if j < |a| { assert atb[j] == ab[j]; } else if j > |a| { assert atb[j] == ab[j - 1]; }
      }
      if k + 1 < |atb| { assert atb[k + 1] == ab[k]; }
      assert StopIndex(atb) == k + 1;
      var c := ab[|a|..k];
      assert Processed(ab) == a + c;
      assert Processed(atb) == a + [t] + c;
      RunIgnores(a, t, c);
    }
  }

  /** A stream without errors is read to its end. */
  lemma NoErrorReadToEnd(ts: seq<Token>)
    requires forall j :: 0 <= j < |ts| ==> !ts[j].Error?
    ensures Processed(ts) == ts
  {
  }

  /** Running one more token is one more step. */
  lemma RunSnoc(ts: seq<Token>, t: Token)
    ensures Run(ts + [t]) == Step(Run(ts), t)
  {
    assert (ts + [t])[..|ts|] == ts;
  }

  /** The buffer is never cleared: an element with no text of its own gets
      the last text read before it, here the newline between two elements. */
  lemma InheritsEarlierText()
    ensures Extract([StartElement("a"), CharData("1"), EndElement("a"), CharData("\n"), StartElement("b"), EndElement("b")])
         == Extracted(map["a" := "1", "b" := "\n"])
  {
    var t1 := [StartElement("a")];
    var t2 := t1 + [CharData("1")];
    var t3 := t2 + [EndElement("a")];
    var t4 := t3 + [CharData("\n")];
    var t5 := t4 + [StartElement("b")];
    var t6 := t5 + [EndElement("b")];
    RunSnoc([], StartElement("a"));
    RunSnoc(t1, CharData("1"));
    RunSnoc(t2, EndElement("a"));
    RunSnoc(t3, CharData("\n"));
    RunSnoc(t4, StartElement("b"));
    RunSnoc(t5, EndElement("b"));
    assert Run(t2) == Scanning(map[], ["1"]);
    assert Run(t3) == Scanning(map["a" := "1"], ["1"]);
    assert Run(t5) == Scanning(map["a" := "1"], ["1", "\n"]);
    assert Run(t6) == Scanning(map["a" := "1", "b" := "\n"], ["1", "\n"]);
    NoErrorReadToEnd(t6);
    assert t6 == [StartElement("a"), CharData("1"), EndElement("a"), CharData("\n"), StartElement("b"), EndElement("b")];
  }

  /** An EndElement read before any text panics, whatever follows. */
  lemma EarlyEndPanics(rest: seq<Token>)
    ensures Extract([StartElement("a"), EndElement("a")] + rest) == IndexOutOfRange
  {
    var ts := [StartElement("a"), EndElement("a")] + rest;
    var k := StopIndex(ts);
    assert ts[0] == StartElement("a") && ts[1] == EndElement("a");
    assert k >= 2 by {
      assert StopIndex(ts[1..]) == 1 + StopIndex(ts[1..][1..]);
    }
    assert Run(ts[..2]).Crashed? by {
      assert ts[..2][..1][..0] == [];
      assert ts[..2][..1] == [StartElement("a")];
      assert Run(ts[..2][..1]) == Scanning(map[], []);
      assert ts[..2][1] == EndElement("a");
    }
    CrashIsFinal(ts, 2, k);
  }
}
