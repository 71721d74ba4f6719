/**
 * The `applyCorrection` message handler of the analysis panel: pick the
 * correction by index, ask for confirmation, replace every case-insensitive
 * occurrence of its phrase in the document, and edit the whole document unless
 * nothing changed.
 *
 * The source builds `new RegExp(phrase, 'gi')` and calls `String.replace`.
 * The model covers phrases that are non-empty, ASCII and free of regular
 * expression metacharacters, and suggestions free of `$`; there the regular
 * expression matches the phrase literally under ASCII case folding, and the
 * replacement is inserted verbatim.
 */
module Corrections {

  import opened Wrappers
  import opened JsValues
  import opened Editor

  /** The phrase occurs at index `i` of `t`, ignoring ASCII case. */
  predicate MatchAt(t: string, p: string, i: int) {
    0 <= i && i + |p| <= |t| && forall k :: 0 <= k < |p| ==> LowerChar(t[i + k]) == LowerChar(p[k])
  }

  /** Global replace, scanning left to right and resuming after each match. */
  function ReplaceAll(t: string, p: string, s: string): string
    requires p != []
    decreases |t|
  {
    if |t| == 0 then []
    else if MatchAt(t, p, 0) then s + ReplaceAll(t[|p|..], p, s)
    else [t[0]] + ReplaceAll(t[1..], p, s)
  }

  lemma MatchShift(t: string, p: string, d: nat, i: int)
    requires d <= |t| && 0 <= i
    ensures MatchAt(t[d..], p, i) <==> MatchAt(t, p, i + d)
  {
    if MatchAt(t, p, i + d) {
      forall k | 0 <= k < |p| ensures LowerChar(t[d..][i + k]) == LowerChar(p[k]) {
        assert t[d..][i + k] == t[i + d + k];
      }
    }
  }

  /** With no occurrence anywhere, the replace returns the text unchanged. */
  lemma {:induction false} ReplaceWithoutMatch(t: string, p: string, s: string)
    requires p != []
    requires forall i :: 0 <= i < |t| ==> !MatchAt(t, p, i)
    ensures ReplaceAll(t, p, s) == t
  {
    if t != [] {
      assert !MatchAt(t, p, 0);
      forall i | 0 <= i < |t[1..]| ensures !MatchAt(t[1..], p, i) {
        MatchShift(t, p, 1, i);
      }
      ReplaceWithoutMatch(t[1..], p, s);
      assert t == [t[0]] + t[1..];
    }
  }

  /** Without a match at the start, the first character is kept and the scan moves on. */
  lemma SkipFirst(t: string, p: string, s: string)
    requires p != [] && t != [] && !MatchAt(t, p, 0)
    ensures ReplaceAll(t, p, s) == [t[0]] + ReplaceAll(t[1..], p, s)
  {
  }

  /** Dropping the first character moves every earlier non-match one place left. */
  lemma NoMatchBeforeShift(t: string, p: string, i: nat)
    requires 0 < i <= |t|
    requires forall j :: 0 <= j < i ==> !MatchAt(t, p, j)
    ensures forall j :: 0 <= j < i - 1 ==> !MatchAt(t[1..], p, j)
  {
    forall j | 0 <= j < i - 1 ensures !MatchAt(t[1..], p, j) {
      MatchShift(t, p, 1, j);
    }
  }

  /**
   * The first replacement is made at the leftmost occurrence: the text before it
   * is kept, the occurrence becomes the suggestion, and the scan resumes after it.
   */
  lemma {:induction false} ReplaceLeftmost(t: string, p: string, s: string, i: nat)
    requires p != []
    requires MatchAt(t, p, i)
    requires forall j :: 0 <= j < i ==> !MatchAt(t, p, j)
    ensures ReplaceAll(t, p, s) == t[..i] + s + ReplaceAll(t[i + |p|..], p, s)
  {
    if i == 0 {
      ReplaceAtStart(t, p, s);
    } else {
      var u := t[1..];
      SkipFirst(t, p, s);
      MatchShift(t, p, 1, i - 1);
      NoMatchBeforeShift(t, p, i);
      ReplaceLeftmost(u, p, s, i - 1);
      LeftmostStep(t, p, s, i);
    }
  }

  /** The inductive step of `ReplaceLeftmost`: the first character goes back in front. */
  lemma LeftmostStep(t: string, p: string, s: string, i: nat)
    requires p != [] && 0 < i && i + |p| <= |t|
    requires ReplaceAll(t, p, s) == [t[0]] + ReplaceAll(t[1..], p, s)
    requires ReplaceAll(t[1..], p, s) == t[1..][..i - 1] + s + ReplaceAll(t[1..][i - 1 + |p|..], p, s)
    ensures ReplaceAll(t, p, s) == t[..i] + s + ReplaceAll(t[i + |p|..], p, s)
  {
    var u := t[1..];
    DropFirst(t, i, i + |p|);
    SameTextSameReplace(u[i - 1 + |p|..], t[i + |p|..], p, s);
    Regroup(ReplaceAll(t, p, s), ReplaceAll(u, p, s), t[0], u[..i - 1], s,
            ReplaceAll(u[i - 1 + |p|..], p, s), ReplaceAll(t[i + |p|..], p, s), t[..i]);
  }

  /** With a match at the start, the suggestion comes first and the scan resumes after the match. */
  lemma ReplaceAtStart(t: string, p: string, s: string)
    requires p != [] && MatchAt(t, p, 0)
    ensures ReplaceAll(t, p, s) == t[..0] + s + ReplaceAll(t[|p|..], p, s)
  {
    assert t != [];
    var rest := ReplaceAll(t[|p|..], p, s);
    assert ReplaceAll(t, p, s) == s + rest;
    assert t[..0] + s == s;
  }

  /** How the slices of a text relate to those of the text without its first character. */
  lemma DropFirst(t: string, i: nat, m: nat)
    requires 0 < i <= m <= |t|
    ensures t[..i] == [t[0]] + t[1..][..i - 1]
    ensures t[1..][m - 1..] == t[m..]
  {
  }

  lemma SameTextSameReplace(a: string, b: string, p: string, s: string)
    requires p != [] && a == b
    ensures ReplaceAll(a, p, s) == ReplaceAll(b, p, s)
  {
  }

  /** The equational step of `ReplaceLeftmost`, over plain strings. */
  lemma Regroup(whole: string, tail: string, c: char, before: string, s: string, rest: string, rest2: string, prefix: string)
    requires whole == [c] + tail
    requires tail == before + s + rest
    requires rest == rest2
    requires prefix == [c] + before
    ensures whole == prefix + s + rest2
  {
  }



  lemma LowerCharIdempotent(c: char)
    ensures LowerChar(LowerChar(c)) == LowerChar(c)
  {
  }

  /** Whether the phrase matches depends only on the text's lower-cased form. */
  lemma MatchIgnoresTextCase(t: string, p: string, i: int)
    ensures MatchAt(t, p, i) <==> MatchAt(LowerStr(t), p, i)
  {
    forall j | 0 <= j < |t|
      ensures LowerChar(LowerStr(t)[j]) == LowerChar(t[j])
    {
      LowerCharIdempotent(t[j]);
    }
  }

  /**
   * The replace is case-insensitive in the text: lower-casing the text first
   * makes the same replacements, so both results agree once lower-cased.
   */
  lemma {:induction false} ReplaceIgnoresTextCase(t: string, p: string, s: string)
    requires p != []
    ensures LowerStr(ReplaceAll(LowerStr(t), p, s)) == LowerStr(ReplaceAll(t, p, s))
    decreases |t|
  {
    if t != [] {
      var lt := LowerStr(t);
      MatchIgnoresTextCase(t, p, 0);
      if MatchAt(t, p, 0) {
        assert lt[|p|..] == LowerStr(t[|p|..]);
        ReplaceIgnoresTextCase(t[|p|..], p, s);
        LowerStrAppend(s, ReplaceAll(lt[|p|..], p, s));
        LowerStrAppend(s, ReplaceAll(t[|p|..], p, s));
      } else {
        assert lt[1..] == LowerStr(t[1..]);
        ReplaceIgnoresTextCase(t[1..], p, s);
        LowerStrAppend([lt[0]], ReplaceAll(lt[1..], p, s));
        LowerStrAppend([t[0]], ReplaceAll(t[1..], p, s));
        LowerCharIdempotent(t[0]);
      }
    }
  }

  lemma LowerStrAppend(a: string, b: string)
    ensures LowerStr(a + b) == LowerStr(a) + LowerStr(b)
  {
    assert forall k :: 0 <= k < |a + b| ==> LowerStr(a + b)[k] == (LowerStr(a) + LowerStr(b))[k];
  }

  /** The phrase's own case does not matter either. */
  lemma {:induction false} ReplaceIgnoresPhraseCase(t: string, p: string, q: string, s: string)
    requires p != [] && LowerStr(p) == LowerStr(q)
    ensures ReplaceAll(t, p, s) == ReplaceAll(t, q, s)
    decreases |t|
  {
    assert |p| == |q|;
    if t != [] {
      assert forall k :: 0 <= k < |p| ==> LowerChar(p[k]) == LowerChar(q[k]) by {
        forall k | 0 <= k < |p| ensures LowerChar(p[k]) == LowerChar(q[k]) {
          assert LowerStr(p)[k] == LowerStr(q)[k];
        }
      }
      assert MatchAt(t, p, 0) <==> MatchAt(t, q, 0);
      if MatchAt(t, p, 0) {
        ReplaceIgnoresPhraseCase(t[|p|..], p, q, s);
      } else {
        ReplaceIgnoresPhraseCase(t[1..], p, q, s);
      }
    }
  }

  /** No match can start where the first character already differs. */
  lemma FirstCharMismatch(t: string, p: string, i: int)
    requires p != [] && 0 <= i < |t| && LowerChar(t[i]) != LowerChar(p[0])
    ensures !MatchAt(t, p, i)
  {
  }

  /** `"hello world, Hello again"` with `Hello` → `Hi` becomes `"Hi world, Hi again"`. */
  lemma ReplaceExample()
    ensures ReplaceAll("hello" + " world, " + "Hello" + " again", "Hello", "Hi") == "Hi" + " world, " + "Hi" + " again"
  {
    var rest := " world, " + "Hello" + " again";
    assert "hello" + " world, " + "Hello" + " again" == "hello" + rest;
    ReplaceExampleFirst(rest);
    ReplaceExampleSecond();
    ReplaceExampleTail();
    assert "Hi" + (" world, " + "Hi" + " again") == "Hi" + " world, " + "Hi" + " again";
  }

  lemma ReplaceExampleFirst(rest: string)
    ensures ReplaceAll("hello" + rest, "Hello", "Hi") == "Hi" + ReplaceAll(rest, "Hello", "Hi")
  {
    var t := "hello" + rest;
    assert MatchAt(t, "Hello", 0);
    assert t[5..] == rest;
  }

  lemma ReplaceExampleSecond()
    ensures ReplaceAll(" world, " + "Hello" + " again", "Hello", "Hi") == " world, " + "Hi" + ReplaceAll(" again", "Hello", "Hi")
  {
    var p := "Hello";
    var rest := " world, " + "Hello" + " again";
    assert MatchAt(rest, p, 8);
    forall j | 0 <= j < 8 ensures !MatchAt(rest, p, j) {
      FirstCharMismatch(rest, p, j);
    }
    ReplaceLeftmost(rest, p, "Hi", 8);
    assert rest[..8] == " world, ";
    assert rest[8 + |p|..] == " again";
  }

  lemma ReplaceExampleTail()
    ensures ReplaceAll(" again", "Hello", "Hi") == " again"
  {
    var d := " again";
    forall j | 0 <= j < |d| ensures !MatchAt(d, "Hello", j) {
      FirstCharMismatch(d, "Hello", j);
    }
    ReplaceWithoutMatch(d, "Hello", "Hi");
  }

  /**
   * Equality of the texts before and after is not the same as "not found": when
   * the suggestion equals the text that matched (a phrase differing from it only
   * in case), the phrase is found yet the text is left as it was.
   */
  lemma FoundYetUnchanged()
    ensures MatchAt("hello", "Hello", 0)
    ensures ReplaceAll("hello", "Hello", "hello") == "hello"
  {
    assert MatchAt("hello", "Hello", 0);
    assert "hello"[5..] == [];
  }

  const RegexMetacharacters: set<char> := {'\\', '^', '$', '.', '|', '?', '*', '+', '(', ')', '[', ']', '{', '}'}

  /** A phrase that a case-insensitive regular expression matches literally under ASCII folding. */
  predicate LiteralPhrase(p: string) {
    p != [] && forall k :: 0 <= k < |p| ==> p[k] as int < 128 && p[k] !in RegexMetacharacters
  }

  /** A replacement string with no `$` patterns. */
  predicate LiteralSuggestion(s: string) {
    forall k :: 0 <= k < |s| ==> s[k] != '$'
  }

  datatype ApplyOutcome =
    | InvalidIndex
    | Declined
    | OutsideLiteralSubset
    | NotFound
    | Rewrite(newText: string)

  /** `typeof message.index === 'number' ? message.index : -1` */
  function SelectedIndex(index: JsValue): int {
    if index.Num? then index.n else -1
  }

  /** The correction `corrections[idx]` the message designates. */
  function Selected(corrections: JsValue, index: JsValue): JsValue {
    OptElem(corrections, SelectedIndex(index))
  }

  /** The selected correction has a literal phrase and suggestion, the subset this model covers. */
  predicate Literal(c: JsValue) {
    var phrase, suggestion := OptGet(c, "phrase"), OptGet(c, "suggestion");
    phrase.Str? && LiteralPhrase(phrase.s) && suggestion.Str? && LiteralSuggestion(suggestion.s)
  }

  /**
   * What the handler does with document text `fullText`: a falsy selection is an
   * invalid index; an unconfirmed one does nothing; otherwise every occurrence is
   * replaced, and an unchanged text is reported as not found.
   */
  function DecideCorrection(corrections: JsValue, index: JsValue, confirmed: bool, fullText: string): (r: ApplyOutcome)
    requires Truthy(corrections)
    ensures r.InvalidIndex? <==> !Truthy(Selected(corrections, index))
    ensures r.Declined? <==> Truthy(Selected(corrections, index)) && !confirmed
    ensures r.OutsideLiteralSubset? <==> Truthy(Selected(corrections, index)) && confirmed && !Literal(Selected(corrections, index))
    ensures r.Rewrite? ==> r.newText != fullText
    ensures r.NotFound? || r.Rewrite? ==>
      var c := Selected(corrections, index);
      var replaced := ReplaceAll(fullText, OptGet(c, "phrase").s, OptGet(c, "suggestion").s);
      && Literal(c)
      && (r.NotFound? <==> replaced == fullText)
      && (r.Rewrite? ==> r.newText == replaced)
  {
    var correction := Selected(corrections, index);
    if !Truthy(correction) then InvalidIndex
    else if !confirmed then Declined
    else if !Literal(correction) then OutsideLiteralSubset
    else
      var newText := ReplaceAll(fullText, OptGet(correction, "phrase").s, OptGet(correction, "suggestion").s);
      if newText == fullText then NotFound else Rewrite(newText)
  }

  /**
   * A rewrite happens only where the phrase occurs: a confirmed literal correction
   * whose phrase occurs nowhere in the text is reported as not found.
   */
  lemma RewriteOnlyWhenFound(corrections: JsValue, index: JsValue, fullText: string)
    requires Truthy(corrections)
    requires Truthy(Selected(corrections, index)) && Literal(Selected(corrections, index))
    ensures var r := DecideCorrection(corrections, index, true, fullText);
      var phrase := OptGet(Selected(corrections, index), "phrase").s;
      r.Rewrite? ==> exists i :: 0 <= i < |fullText| && MatchAt(fullText, phrase, i)
  {
    var c := Selected(corrections, index);
    var phrase, suggestion := OptGet(c, "phrase").s, OptGet(c, "suggestion").s;
    if forall i :: 0 <= i < |fullText| ==> !MatchAt(fullText, phrase, i) {
      ReplaceWithoutMatch(fullText, phrase, suggestion);
    }
  }

  /**
   * Against a list of corrections, the index is invalid exactly when it is not a
   * number in range or designates a falsy entry.
   */
  lemma InvalidIndexInList(cs: seq<JsValue>, index: JsValue, confirmed: bool, fullText: string)
    ensures DecideCorrection(Arr(cs), index, confirmed, fullText).InvalidIndex?
        <==> !(index.Num? && 0 <= index.n < |cs| && Truthy(cs[index.n]))
  {
  }

  /** Index 99 into a two-correction list is invalid, whatever the document says. */
  lemma IndexOutOfRangeExample(c0: JsValue, c1: JsValue, fullText: string)
    ensures DecideCorrection(Arr([c0, c1]), Num(99), true, fullText) == InvalidIndex
  {
  }

  /** The message shown for each outcome; `editApplied` is what the editor reports for the edit. */
  function ApplyNotice(outcome: ApplyOutcome, editApplied: bool): Option<Notice> {
    match outcome
    case InvalidIndex => Some(Error("Invalid correction index."))
    case Declined => None
    case OutsideLiteralSubset => None
    case NotFound => Some(Warning("The ambiguous phrase was not found in the document."))
    case Rewrite(_) =>
      if editApplied then Some(Info("Correction applied.")) else Some(Error("Failed to apply correction."))
  }

  /**
   * The handler against the open document: a rewrite replaces the range
   * `[0, |text|)` with the new text in one edit; every other modelled outcome
   * leaves the document as it was.
   */
  method ApplyCorrection(doc: Document, corrections: JsValue, index: JsValue, confirmed: bool, editApplied: bool)
    returns (outcome: ApplyOutcome, notice: Option<Notice>)
    requires Truthy(corrections)
    modifies doc
    ensures outcome == DecideCorrection(corrections, index, confirmed, old(doc.text))
    ensures notice == ApplyNotice(outcome, editApplied)
    ensures outcome.Rewrite? && editApplied ==> doc.text == outcome.newText
    ensures !outcome.OutsideLiteralSubset? && (!outcome.Rewrite? || !editApplied) ==> doc.text == old(doc.text)
  {
    outcome := DecideCorrection(corrections, index, confirmed, doc.text);
    if outcome.Rewrite? && editApplied {
      doc.Replace(0, |doc.text|, outcome.newText);
    }
    notice := ApplyNotice(outcome, editApplied);
  }
}
