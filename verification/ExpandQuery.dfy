/**
 Both forms of expandQuery (database/database.cpp:508-562): the query string is rewritten in place at a moving
 index. Each is proved equal to one left-to-right pass over the original text.
 */
module ExpandQuery {
  const POSITIONAL := '?'
  const NAMED := ':'

  /** QString::indexOf from a position on; -1 for none. */
  method IndexOf(text: string, marker: char, from: nat) returns (k: int)
    requires from <= |text|
    ensures k == -1 ==> marker !in text[from..]
    ensures k != -1 ==> from <= k < |text| && text[k] == marker && marker !in text[from..k]
  {
    k := from;
    while k < |text|
      invariant from <= k <= |text| && marker !in text[from..k]
    {
      if text[k] == marker { return; }
      k := k + 1;
    }
    assert text[from..k] == text[from..];
    k := -1;
  }

  /** QString::replace at a position. */
  function Replaced(text: string, at: nat, len: nat, value: string): string
    requires at + len <= |text|
  {
    text[..at] + value + text[at + len..]
  }

  lemma ReplacedParts(text: string, at: nat, len: nat, value: string)
    requires at + len <= |text|
    ensures var r := Replaced(text, at, len, value);
            && at + |value| <= |r| && |r| - (at + |value|) == |text| - (at + len)
            && r[..at + |value|] == text[..at] + value && r[at + |value|..] == text[at + len..]
  {
  }

  // ---- positional bindings --------------------------------------------------------------------------

  /** Each marker of the original text becomes the next value, while there are values. */
  function Substitute(text: string, values: seq<string>): string
    decreases |text|
  {
    if text == "" || values == [] then text
    else if text[0] == POSITIONAL then values[0] + Substitute(text[1..], values[1..])
    else [text[0]] + Substitute(text[1..], values)
  }

  lemma {:induction false} SkipToMarker(before: string, rest: string, values: seq<string>)
    requires POSITIONAL !in before
    ensures Substitute(before + rest, values) == before + Substitute(rest, values)
    decreases |before|
  {
    if before == "" {
      assert before + rest == rest;
    } else if values != [] {
      assert (before + rest)[1..] == before[1..] + rest;
      SkipToMarker(before[1..], rest, values);
      assert before == [before[0]] + before[1..];
    }
  }

  lemma PositionalHead(query: string, k: nat, values: seq<string>)
    requires k < |query| && query[k] == POSITIONAL && values != []
    ensures Substitute(query[k..], values) == values[0] + Substitute(query[k + 1..], values[1..])
  {
    assert query[k..][1..] == query[k + 1..];
  }

  lemma PositionalStep(query: string, index: nat, k: nat, values: seq<string>)
    requires index <= k < |query| && POSITIONAL !in query[index..k] && query[k] == POSITIONAL && values != []
    ensures query[..index] + Substitute(query[index..], values) ==
            (query[..k] + values[0]) + Substitute(query[k + 1..], values[1..])
  {
    hide Substitute;
    PositionalHead(query, k, values);
    SkipToMarker(query[index..k], query[k..], values);
    assert query[index..] == query[index..k] + query[k..];
    assert query[..k] == query[..index] + query[index..k];
  }

  lemma PositionalEnd(query: string, index: nat, values: seq<string>)
    requires index <= |query| && (POSITIONAL !in query[index..] || values == [])
    ensures query[..index] + Substitute(query[index..], values) == query
  {
    if values != [] {
      SkipToMarker(query[index..], "", values);
      assert query[index..] + "" == query[index..];
    }
  }

  method ExpandPositional(queryString: string, bindings: seq<string>) returns (query: string)
    ensures query == Substitute(queryString, bindings)
  {
    hide Substitute, Replaced;
    query := queryString;
    var index := 0;
    for i := 0 to |bindings|
      invariant 0 <= index <= |query|
      invariant Substitute(queryString, bindings) == query[..index] + Substitute(query[index..], bindings[i..])
    {
      var k := IndexOf(query, POSITIONAL, index);
      if k == -1 {
        PositionalEnd(query, index, bindings[i..]);
        return;
      }
      PositionalStep(query, index, k, bindings[i..]);
      ReplacedParts(query, k, 1, bindings[i]);
      query := Replaced(query, k, 1, bindings[i]);
      index := k + |bindings[i]|;
    }
    PositionalEnd(query, index, bindings[|bindings|..]);
  }

  // ---- named bindings -------------------------------------------------------------------------------

  datatype Variant = Invalid | Text(text: string) | Other(shown: string)

  type Bindings = map<string, Variant>

  /** QMap::value gives an invalid variant for a missing key; only strings are quoted. */
  function ValueText(bindings: Bindings, key: string): string {
    match if key in bindings then bindings[key] else Invalid
    case Invalid => ""
    case Text(text) => "'" + text + "'"
    case Other(shown) => shown
  }

  /** How many leading characters are letters. */
  function Letters(text: string, isLetter: char -> bool): (n: nat)
    ensures n <= |text|
    decreases |text|
  {
    if text != "" && isLetter(text[0]) then 1 + Letters(text[1..], isLetter) else 0
  }

  /** Each marker with the letters after it, in the original text, becomes the value of that name. */
  function SubstituteNames(text: string, bindings: Bindings, isLetter: char -> bool): string
    decreases |text|
  {
    if text == "" then ""
    else if text[0] == NAMED then
      var n := 1 + Letters(text[1..], isLetter);
      ValueText(bindings, text[..n]) + SubstituteNames(text[n..], bindings, isLetter)
    else [text[0]] + SubstituteNames(text[1..], bindings, isLetter)
  }

  lemma {:induction false} SkipToName(before: string, rest: string, bindings: Bindings, isLetter: char -> bool)
    requires NAMED !in before
    ensures SubstituteNames(before + rest, bindings, isLetter) == before + SubstituteNames(rest, bindings, isLetter)
    decreases |before|
  {
    if before == "" {
      assert before + rest == rest;
    } else {
      assert (before + rest)[1..] == before[1..] + rest;
      SkipToName(before[1..], rest, bindings, isLetter);
      assert before == [before[0]] + before[1..];
    }
  }

  method CountLetters(text: string, from: nat, isLetter: char -> bool) returns (len: nat)
    requires from < |text|
    ensures len == 1 + Letters(text[from + 1..], isLetter) && from + len <= |text|
  {
    len := 1;
    while len < |text| - from && isLetter(text[from + len])
      invariant 1 <= len <= |text| - from
      invariant 1 + Letters(text[from + 1..], isLetter) == len + Letters(text[from + len..], isLetter)
    {
      assert text[from + len..][1..] == text[from + len + 1..];
      len := len + 1;
    }
  }

  lemma NamedHead(query: string, k: nat, len: nat, bindings: Bindings, isLetter: char -> bool)
    requires k < |query| && query[k] == NAMED && len == 1 + Letters(query[k + 1..], isLetter)
    ensures k + len <= |query|
    ensures SubstituteNames(query[k..], bindings, isLetter) ==
            ValueText(bindings, query[k..k + len]) + SubstituteNames(query[k + len..], bindings, isLetter)
  {
    hide ValueText;
    assert query[k..][1..] == query[k + 1..];
    assert query[k..][..len] == query[k..k + len] && query[k..][len..] == query[k + len..];
  }

  lemma NamedStep(query: string, index: nat, k: nat, len: nat, bindings: Bindings, isLetter: char -> bool)
    requires index <= k < |query| && k + len <= |query| && NAMED !in query[index..k]
    requires query[k] == NAMED && len == 1 + Letters(query[k + 1..], isLetter)
    ensures query[..index] + SubstituteNames(query[index..], bindings, isLetter) ==
            (query[..k] + ValueText(bindings, query[k..k + len])) +
            SubstituteNames(query[k + len..], bindings, isLetter)
  {
    hide ValueText, SubstituteNames, Letters;
    NamedHead(query, k, len, bindings, isLetter);
    SkipToName(query[index..k], query[k..], bindings, isLetter);
    assert query[index..] == query[index..k] + query[k..];
    assert query[..k] == query[..index] + query[index..k];
  }

  lemma NamedEnd(query: string, index: nat, bindings: Bindings, isLetter: char -> bool)
    requires index <= |query| && NAMED !in query[index..]
    ensures query[..index] + SubstituteNames(query[index..], bindings, isLetter) == query
  {
    SkipToName(query[index..], "", bindings, isLetter);
    assert query[index..] + "" == query[index..];
  }

  lemma {:induction false} LettersOfName(name: string, rest: string, isLetter: char -> bool)
    requires forall i :: 0 <= i < |name| ==> isLetter(name[i])
    requires rest != "" ==> !isLetter(rest[0])
    ensures Letters(name + rest, isLetter) == |name|
    decreases |name|
  {
    if name == "" {
      assert name + rest == rest;
    } else {
      assert (name + rest)[1..] == name[1..] + rest;
      LettersOfName(name[1..], rest, isLetter);
    }
  }

  /**
   What becomes of the first name in a query: a string is put in quotes, other values are shown, and a name that is not
   bound, or bound to nothing, disappears. What is put in is not looked at again.
   */
  lemma NameBecomesValue(before: string, name: string, rest: string, bindings: Bindings, isLetter: char -> bool,
                         value: string)
    requires NAMED !in before && forall i :: 0 <= i < |name| ==> isLetter(name[i])
    requires rest != "" ==> !isLetter(rest[0])
    requires var key := [NAMED] + name;
             if key !in bindings || bindings[key] == Invalid then value == ""
             else if bindings[key].Text? then value == "'" + bindings[key].text + "'"
             else value == bindings[key].shown
    ensures SubstituteNames(before + ([NAMED] + name + rest), bindings, isLetter) ==
            before + (value + SubstituteNames(rest, bindings, isLetter))
  {
    var query := [NAMED] + name + rest;
    assert ValueText(bindings, [NAMED] + name) == value;
    hide SubstituteNames, Letters, ValueText;
    SkipToName(before, query, bindings, isLetter);
    LettersOfName(name, rest, isLetter);
    assert query[1..] == name + rest;
    NamedHead(query, 0, 1 + |name|, bindings, isLetter);
    assert query[0..] == query && query[0..1 + |name|] == [NAMED] + name && query[1 + |name|..] == rest;
  }

  method ExpandNamed(queryString: string, bindings: Bindings, isLetter: char -> bool) returns (query: string)
    ensures query == SubstituteNames(queryString, bindings, isLetter)
  {
    hide SubstituteNames, Replaced, ValueText, Letters;
    query := queryString;
    var index := 0;
    while true
      invariant 0 <= index <= |query|
      invariant SubstituteNames(queryString, bindings, isLetter) ==
                query[..index] + SubstituteNames(query[index..], bindings, isLetter)
      decreases |query| - index
    {
      var k := IndexOf(query, NAMED, index);
      if k == -1 {
        NamedEnd(query, index, bindings, isLetter);
        return;
      }
      var len := CountLetters(query, k, isLetter);
      var value := ValueText(bindings, query[k..k + len]);
      NamedStep(query, index, k, len, bindings, isLetter);
      ReplacedParts(query, k, len, value);
      query := Replaced(query, k, len, value);
      index := k + |value|;
    }
  }
}
