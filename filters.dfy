/** The Jinja filters `render_list`, `textbf` and `roman`. Their Python
    bodies are not part of this model: the definitions follow what the
    filter tests assert (core/utilities/test_filters.py), and the tests'
    concrete cases are proved as lemmas below. */
module Filters {
  import opened Common

  // -------------------------------------------------------------------
  // render_list

  /** The filter's argument: a plain string, or a list of strings. */
  datatype Listing = Scalar(text: string) | Many(items: seq<string>)

  function Map(func: string -> string, items: seq<string>): (r: seq<string>)
    ensures |r| == |items|
    ensures forall i :: 0 <= i < |items| ==> r[i] == func(items[i])
  {
    if items == [] then [] else [func(items[0])] + Map(func, items[1..])
  }

  function Identity(s: string): string { s }

  /** Items joined the Slovak way: commas between all but the last two,
      " a " ("and") before the last. */
  function Conjoin(items: seq<string>): string
  {
    if |items| <= 1 then Join("", items)
    else Join(", ", items[..|items| - 1]) + " a " + items[|items| - 1]
  }

  /** `render_list(value, func)`: a string is returned unchanged (the
      function is not applied to it); a list has `func` applied to every
      element and the results conjoined. */
  function RenderList(value: Listing, func: string -> string): string
  {
    match value
    case Scalar(text) => text
    case Many(items) => Conjoin(Map(func, items))
  }

  /** Reading order of the rendered sentence, built element by element:
      the empty list gives "", one item gives itself, two give "x a y",
      and a longer list puts its head in front with a comma. */
  function Sentence(items: seq<string>): string
  {
    if |items| == 0 then ""
    else if |items| == 1 then items[0]
    else if |items| == 2 then items[0] + " a " + items[1]
    else items[0] + ", " + Sentence(items[1..])
  }

  lemma {:induction false} ConjoinIsSentence(items: seq<string>)
    ensures Conjoin(items) == Sentence(items)
  {
    if |items| > 2 {
      var rest := items[1..];
      ConjoinIsSentence(rest);
      assert items[..|items| - 1][1..] == rest[..|rest| - 1];
      assert items[|items| - 1] == rest[|rest| - 1];
    }
  }

  /** A string is returned as it is; a list of strings renders as the
      sentence of its images under `func`. */
  lemma RenderListSpec(value: Listing, func: string -> string)
    ensures value.Scalar? ==> RenderList(value, func) == value.text
    ensures value.Many? ==> RenderList(value, func) == Sentence(Map(func, value.items))
    ensures value.Many? ==> RenderList(value, func) == RenderList(Many(Map(func, value.items)), Identity)
  {
    if value.Many? {
      ConjoinIsSentence(Map(func, value.items));
      assert Map(Identity, Map(func, value.items)) == Map(func, value.items);
    }
  }

  /** `textbf(s)`: the string wrapped in a bold command. */
  function Textbf(s: string): (r: string)
    ensures |r| == |s| + 9
    ensures r[..8] == "\\textbf{" && r[|r| - 1] == '}'
    ensures r[8..|r| - 1] == s
  {
    "\\textbf{" + s + "}"
  }

  /** Different strings stay different when wrapped. */
  lemma TextbfInjective(a: string, b: string)
    ensures Textbf(a) == Textbf(b) ==> a == b
  {
    if Textbf(a) == Textbf(b) {
      assert a == Textbf(a)[8..|Textbf(a)| - 1];
    }
  }

  /** The short cases the filter tests pin down. */
  lemma RenderListExamples()
    ensures RenderList(Scalar("string"), Identity) == "string"
    ensures RenderList(Many([]), Identity) == ""
    ensures RenderList(Many(["x"]), Identity) == "x"
    ensures RenderList(Many(["x", "y"]), Identity) == "x a y"
  {
    assert Map(Identity, ["x"]) == ["x"];
    assert Map(Identity, ["x", "y"]) == ["x", "y"];
  }

  lemma RenderListThreeExample()
    ensures RenderList(Many(["x", "y", "z"]), Identity) == "x, y a z"
  {
    assert Map(Identity, ["x", "y", "z"]) == ["x", "y", "z"];
    ConjoinIsSentence(["x", "y", "z"]);
    assert ["x", "y", "z"][1..] == ["y", "z"];
    assert Sentence(["y", "z"]) == "y a z";
  }

  lemma RenderListFourExample()
    ensures RenderList(Many(["Hovi", "Enka", "Fek", "Lista"]), Identity) == "Hovi, Enka, Fek a Lista"
  {
    var items := ["Hovi", "Enka", "Fek", "Lista"];
    assert Map(Identity, items) == items;
    ConjoinIsSentence(items);
    SentenceFourExample();
  }

  lemma SentenceFourExample()
    ensures Sentence(["Hovi", "Enka", "Fek", "Lista"]) == "Hovi, Enka, Fek a Lista"
  {
    var items := ["Hovi", "Enka", "Fek", "Lista"];
    assert items[1..] == ["Enka", "Fek", "Lista"];
    SentenceThreeExample();
  }

  lemma SentenceThreeExample()
    ensures Sentence(["Enka", "Fek", "Lista"]) == "Enka, Fek a Lista"
  {
    var items := ["Enka", "Fek", "Lista"];
    assert items[1..] == ["Fek", "Lista"];
    assert Sentence(["Fek", "Lista"]) == "Fek a Lista";
  }

  /** The tests with a wrapping function: it is applied to every element. */
  lemma RenderListTextbfExample()
    ensures RenderList(Many(["Tvoja", "mama"]), Textbf) == "\\textbf{Tvoja} a \\textbf{mama}"
  {
    MapTextbfExample();
    var wrapped := ["\\textbf{Tvoja}", "\\textbf{mama}"];
    ConjoinIsSentence(wrapped);
    assert Sentence(wrapped) == "\\textbf{Tvoja}" + " a " + "\\textbf{mama}";
  }

  lemma MapTextbfExample()
    ensures Map(Textbf, ["Tvoja", "mama"]) == ["\\textbf{Tvoja}", "\\textbf{mama}"]
  {
    assert Textbf("Tvoja") == "\\textbf{Tvoja}";
    assert Textbf("mama") == "\\textbf{mama}";
  }

  function Call(s: string): string { "f(" + s + ")" }

  lemma RenderListCallExample()
    ensures RenderList(Many(["x", "y", "z"]), Call) == "f(x), f(y) a f(z)"
  {
    var calls := ["f(x)", "f(y)", "f(z)"];
    MapCallExample();
    ConjoinIsSentence(calls);
    assert calls[1..] == ["f(y)", "f(z)"];
    assert Sentence(["f(y)", "f(z)"]) == "f(y) a f(z)";
  }

  lemma MapCallExample()
    ensures Map(Call, ["x", "y", "z"]) == ["f(x)", "f(y)", "f(z)"]
  {
    assert Call("x") == "f(x)" && Call("y") == "f(y)" && Call("z") == "f(z)";
  }

  // -------------------------------------------------------------------
  // roman

  /** The Python values the tests hand to `roman`. */
  datatype PyValue = PyInt(i: int) | PyFloat | PyStr(s: string)

  datatype RomanError = TypeError | ValueError

  /** Largest number `roman` accepts. */
  const MaxRoman := 3999

  /** The thirteen numeral tokens, numbered largest first. */
  type Token = t: int | 0 <= t < 13

  function Symbol(t: Token): string
  {
    match t
    case 0 => "M"  case 1 => "CM"  case 2 => "D"  case 3 => "CD"
    case 4 => "C"  case 5 => "XC"  case 6 => "L"  case 7 => "XL"
    case 8 => "X"  case 9 => "IX"  case 10 => "V" case 11 => "IV"
    case _ => "I"
  }

  function Value(t: Token): (v: nat)
    ensures v >= 1
  {
    match t
    case 0 => 1000  case 1 => 900  case 2 => 500  case 3 => 400
    case 4 => 100   case 5 => 90   case 6 => 50   case 7 => 40
    case 8 => 10    case 9 => 9    case 10 => 5   case 11 => 4
    case _ => 1
  }

  predicate IsRomanChar(c: char) { c in "IVXLCDM" }

  /** Greedy choice of tokens for n, starting at token `from`: the largest
      token value that still fits is taken, as often as it fits. */
  function Tokens(n: nat, from: Token): seq<Token>
    decreases n, 13 - from
  {
    if n == 0 then []
    else if Value(from) <= n then [from] + Tokens(n - Value(from), from)
    else if from == 12 then []
    else Tokens(n, from + 1)
  }

  function Spell(tokens: seq<Token>): (s: string)
    ensures |s| >= |tokens|
    ensures forall k :: 0 <= k < |s| ==> IsRomanChar(s[k])
  {
    if tokens == [] then "" else Symbol(tokens[0]) + Spell(tokens[1..])
  }

  function Total(tokens: seq<Token>): nat
  {
    if tokens == [] then 0 else Value(tokens[0]) + Total(tokens[1..])
  }

  /** The greedy tokens come largest first, never before `from`, and their
      values add up to n. */
  lemma TokensSpec(n: nat, from: Token)
    ensures forall i :: 0 <= i < |Tokens(n, from)| ==> from <= Tokens(n, from)[i]
    ensures forall i, j :: 0 <= i < j < |Tokens(n, from)| ==> Tokens(n, from)[i] <= Tokens(n, from)[j]
    ensures Total(Tokens(n, from)) == n
  {
    TokensSorted(n, from);
    TokensTotal(n, from);
  }

  lemma {:induction false} TokensSorted(n: nat, from: Token)
    ensures forall i :: 0 <= i < |Tokens(n, from)| ==> from <= Tokens(n, from)[i]
    ensures forall i, j :: 0 <= i < j < |Tokens(n, from)| ==> Tokens(n, from)[i] <= Tokens(n, from)[j]
    decreases n, 13 - from
  {
    if n == 0 {
    } else if Value(from) <= n {
      var rest := Tokens(n - Value(from), from);
      TokensSorted(n - Value(from), from);
      var all := [from] + rest;
      assert Tokens(n, from) == all;
      forall i, j | 0 <= i < j < |all| ensures all[i] <= all[j] {
        assert all[j] == rest[j - 1];
      }
    } else if from < 12 {
      TokensSorted(n, from + 1);
    }
  }

  lemma {:induction false} TokensTotal(n: nat, from: Token)
    ensures Total(Tokens(n, from)) == n
    decreases n, 13 - from
  {
    if n == 0 {
    } else if Value(from) <= n {
      var rest := Tokens(n - Value(from), from);
      TokensTotal(n - Value(from), from);
      assert ([from] + rest)[1..] == rest;
    } else {
      assert from < 12;
      TokensTotal(n, from + 1);
    }
  }

  /** Tokens too large for n are passed over. */
  lemma {:induction false} TokensSkip(n: nat, from: Token, to: Token)
    requires from <= to
    requires forall t: Token :: from <= t < to ==> Value(t) > n
    ensures Tokens(n, from) == Tokens(n, to)
    decreases (to as int) - (from as int)
  {
    if from < to {
      TokensSkip(n, from + 1, to);
    }
  }

  /** `roman(value)`: only integers are accepted (TypeError otherwise),
      and only 1 .. MaxRoman (ValueError otherwise). */
  function Roman(value: PyValue): (r: Result<string, RomanError>)
    ensures r.Err? && r.error == TypeError <==> !value.PyInt?
    ensures r.Err? && r.error == ValueError <==> value.PyInt? && !(1 <= value.i <= MaxRoman)
    ensures r.Ok? ==> forall k :: 0 <= k < |r.value| ==> IsRomanChar(r.value[k])
  {
    if !value.PyInt? then Err(TypeError)
    else if !(1 <= value.i <= MaxRoman) then Err(ValueError)
    else Ok(Spell(Tokens(value.i, 0)))
  }

  /** An accepted number is spelled by greedy tokens, largest first, whose
      values add up to the number; so the numeral is never empty. */
  lemma RomanValue(n: int)
    requires 1 <= n <= MaxRoman
    ensures Roman(PyInt(n)) == Ok(Spell(Tokens(n, 0)))
    ensures Total(Tokens(n, 0)) == n && |Roman(PyInt(n)).value| > 0
    ensures forall i, j :: 0 <= i < j < |Tokens(n, 0)| ==> Tokens(n, 0)[i] <= Tokens(n, 0)[j]
  {
    TokensSpec(n, 0);
  }

  /** The error cases and the two short numerals the roman tests pin down. */
  lemma RomanExamples()
    ensures Roman(PyStr("ryba")) == Err(TypeError)
    ensures Roman(PyFloat) == Err(TypeError)
    ensures Roman(PyInt(0)) == Err(ValueError)
    ensures Roman(PyInt(123456)) == Err(ValueError)
    ensures Roman(PyInt(1)) == Ok("I")
    ensures Roman(PyInt(49)) == Ok("XLIX")
  {
    Roman1();
    Roman49();
  }

  lemma Roman1()
    ensures Tokens(1, 0) == [12] && Spell([12]) == "I"
  {
    TokensSkip(1, 0, 12);
  }

  lemma Roman49()
    ensures Tokens(49, 0) == [7, 9] && Spell([7, 9]) == "XLIX"
  {
    TokensSkip(49, 0, 7);
    TokensSkip(9, 7, 9);
    assert Tokens(9, 9) == [9];
    assert Spell([9]) == "IX";
  }

  lemma RomanExample1234()
    ensures Roman(PyInt(1234)) == Ok("MCCXXXIV")
  {
    Tokens1234();
    Spell1234();
  }

  lemma Tokens1234()
    ensures Tokens(1234, 0) == [0, 4, 4, 8, 8, 8, 11]
  {
    Tokens34();
    TokensSkip(234, 0, 4);
    assert Tokens(134, 4) == [4] + Tokens(34, 4);
    assert Tokens(234, 4) == [4] + Tokens(134, 4);
    assert Tokens(1234, 0) == [0] + Tokens(234, 0);
  }

  lemma Tokens34()
    ensures Tokens(34, 4) == [8, 8, 8, 11]
  {
    TokensSkip(34, 4, 8);
    TokensSkip(4, 8, 11);
    assert Tokens(4, 11) == [11];
    assert Tokens(14, 8) == [8] + Tokens(4, 8);
    assert Tokens(24, 8) == [8] + Tokens(14, 8);
    assert Tokens(34, 8) == [8] + Tokens(24, 8);
  }

  lemma Spell1234()
    ensures Spell([0, 4, 4, 8, 8, 8, 11]) == "MCCXXXIV"
  {
    Spell34();
    assert Spell([4, 8, 8, 8, 11]) == "CXXXIV";
    assert Spell([4, 4, 8, 8, 8, 11]) == "CCXXXIV";
  }

  lemma Spell34()
    ensures Spell([8, 8, 8, 11]) == "XXXIV"
  {
    assert Spell([11]) == "IV";
    assert Spell([8, 11]) == "XIV";
    assert Spell([8, 8, 11]) == "XXIV";
  }

  lemma RomanExample1990()
    ensures Roman(PyInt(1990)) == Ok("MCMXC")
  {
    Tokens1990();
    assert Spell([5]) == "XC";
    assert Spell([1, 5]) == "CMXC";
    assert Spell([0, 1, 5]) == "MCMXC";
  }

  lemma Tokens1990()
    ensures Tokens(1990, 0) == [0, 1, 5]
  {
    TokensSkip(990, 0, 1);
    TokensSkip(90, 1, 5);
    assert Tokens(90, 5) == [5];
    assert Tokens(990, 1) == [1] + Tokens(90, 1);
    assert Tokens(1990, 0) == [0] + Tokens(990, 0);
  }

  lemma RomanExample2022()
    ensures Roman(PyInt(2022)) == Ok("MMXXII")
  {
    Tokens2022();
    Spell2022();
  }

  lemma Tokens2022()
    ensures Tokens(2022, 0) == [0, 0, 8, 8, 12, 12]
  {
    TokensSkip(22, 0, 8);
    TokensSkip(2, 8, 12);
    assert Tokens(1, 12) == [12];
    assert Tokens(2, 12) == [12] + Tokens(1, 12);
    assert Tokens(12, 8) == [8] + Tokens(2, 8);
    assert Tokens(22, 8) == [8] + Tokens(12, 8);
    assert Tokens(1022, 0) == [0] + Tokens(22, 0);
    assert Tokens(2022, 0) == [0] + Tokens(1022, 0);
  }

  lemma Spell2022()
    ensures Spell([0, 0, 8, 8, 12, 12]) == "MMXXII"
  {
    assert Spell([12]) == "I";
    assert Spell([12, 12]) == "II";
    assert Spell([8, 12, 12]) == "XII";
    assert Spell([8, 8, 12, 12]) == "XXII";
    assert Spell([0, 8, 8, 12, 12]) == "MXXII";
  }
}
