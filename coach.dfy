/** The text-classification demo of the AI coach page: a fixed input text is cut into
    tokens and each token is filed under Number, Alphabet or Word. */
module Coach {
  import opened Text

  /** The characters the first step of the tokeniser, `replace(/[.,\/]+/g, ' ')`, rewrites. */
  predicate IsSeparator(c: char) {
    c == '.' || c == ',' || c == '/'
  }

  /** A character that can be part of a token: neither whitespace nor a separator. */
  predicate IsTokenChar(c: char) {
    !IsSpace(c) && !IsSeparator(c)
  }

  // ---------------------------------------------------------------------------------------
  // The tokeniser as the source writes it: replace, split, trim, filter.

  /** What is left of `s` once its leading run of `inRun` characters is removed. */
  function SkipRun(s: string, inRun: char -> bool): (r: string)
    ensures |r| <= |s| && r == s[|s| - |r|..]
    ensures forall i :: 0 <= i < |s| - |r| ==> inRun(s[i])
    ensures r != [] ==> !inRun(r[0])
    decreases |s|
  {
    if s != [] && inRun(s[0]) then SkipRun(s[1..], inRun) else s
  }

  /** The leading run of `inRun` characters of `s`. */
  function TakeRun(s: string, inRun: char -> bool): (r: string)
    ensures |r| <= |s| && r == s[..|r|]
    ensures forall i :: 0 <= i < |r| ==> inRun(r[i])
    ensures |r| < |s| ==> !inRun(s[|r|])
    decreases |s|
  {
    if s != [] && inRun(s[0]) then [s[0]] + TakeRun(s[1..], inRun) else []
  }

  /** `s.replace(/[.,\/]+/g, ' ')`: every maximal run of separators becomes a single space. */
  function ReplaceSeparators(s: string): (r: string)
    ensures forall i :: 0 <= i < |r| ==> !IsSeparator(r[i])
    ensures s == [] <==> r == []
    ensures s != [] ==> r[0] == if IsSeparator(s[0]) then ' ' else s[0]
    decreases |s|
  {
    if s == [] then []
    else if IsSeparator(s[0]) then [' '] + ReplaceSeparators(SkipRun(s[1..], IsSeparator))
    else [s[0]] + ReplaceSeparators(s[1..])
  }

  /** `s.split(/\s+/)`: the fields between maximal runs of whitespace. A leading (trailing)
      run yields an empty first (last) field, and the empty string yields one empty field. */
  function SplitOnSpaces(s: string): (fields: seq<string>)
    ensures |fields| > 0
    ensures forall k, j :: 0 <= k < |fields| && 0 <= j < |fields[k]| ==> !IsSpace(fields[k][j])
    decreases |s|
  {
    var field := TakeRun(s, c => !IsSpace(c));
    if |field| == |s| then [s]
    else [field] + SplitOnSpaces(SkipRun(s[|field|..], IsSpace))
  }

  /** A run that does not start at the head of `s` skips nothing. */
  lemma SkipNothing(s: string, inRun: char -> bool)
    ensures s != [] && !inRun(s[0]) ==> SkipRun(s, inRun) == s
  {
  }

  /** `s.trim()`: leading and trailing whitespace removed. The result neither starts nor ends
      with whitespace, and it is `s` itself exactly when `s` is empty or has no whitespace at
      either end. */
  function Trim(s: string): (r: string)
    ensures r != [] ==> !IsSpace(r[0]) && !IsSpace(r[|r| - 1])
    ensures r == s <==> s == [] || (!IsSpace(s[0]) && !IsSpace(s[|s| - 1]))
  {
    var t := SkipRun(s, IsSpace);
    var r := TrimEnd(t);
    SkipNothing(s, IsSpace);
    r
  }

  /** `s.trimEnd()`: the longest prefix of `s` that does not end with whitespace; everything
      removed is whitespace. */
  function TrimEnd(s: string): (r: string)
    ensures |r| <= |s| && r == s[..|r|]
    ensures r != [] ==> !IsSpace(r[|r| - 1])
    ensures forall i :: |r| <= i < |s| ==> IsSpace(s[i])
    ensures r == s <==> s == [] || !IsSpace(s[|s| - 1])
    decreases |s|
  {
    if s != [] && IsSpace(s[|s| - 1]) then TrimEnd(s[..|s| - 1]) else s
  }

  /** `filter(Boolean)` on strings: the non-empty ones, in order. Every kept string is one of
      `fields`, every non-empty field is kept, and nothing is dropped when no field is empty. */
  function NonEmpty(fields: seq<string>): (r: seq<string>)
    ensures |r| <= |fields|
    ensures forall k :: 0 <= k < |r| ==> r[k] != [] && r[k] in fields
    ensures forall k :: 0 <= k < |fields| && fields[k] != [] ==> fields[k] in r
    ensures (forall k :: 0 <= k < |fields| ==> fields[k] != []) ==> r == fields
  {
    if fields == [] then []
    else (if fields[0] == [] then [] else [fields[0]]) + NonEmpty(fields[1..])
  }

  /** The tokeniser of `classifyTokens`:
      `raw.replace(/[.,\/]+/g, ' ').split(/\s+/).map((t) => t.trim()).filter(Boolean)`. */
  function Tokenize(raw: string): (tokens: seq<string>)
    ensures forall k :: 0 <= k < |tokens| ==> tokens[k] != []
    ensures forall k, j :: 0 <= k < |tokens| && 0 <= j < |tokens[k]| ==> !IsSpace(tokens[k][j])
  {
    var fields := SplitOnSpaces(ReplaceSeparators(raw));
    var trimmed := seq(|fields|, k requires 0 <= k < |fields| => Trim(fields[k]));
    assert trimmed == fields;
    NonEmpty(fields)
  }

  // ---------------------------------------------------------------------------------------
  // An independent reference: the tokens of a text are its maximal runs of token characters.

  /** The leading run of token characters of `s`. */
  function Run(s: string): (w: string)
    ensures |w| <= |s| && w == s[..|w|]
    ensures forall j :: 0 <= j < |w| ==> IsTokenChar(w[j])
    ensures |w| < |s| ==> !IsTokenChar(s[|w|])
    ensures s != [] && IsTokenChar(s[0]) ==> w != []
    decreases |s|
  {
    if s != [] && IsTokenChar(s[0]) then [s[0]] + Run(s[1..]) else []
  }

  /** The maximal runs of token characters of `s`, in order. */
  function Tokens(s: string): seq<string>
    decreases |s|
  {
    if s == [] then []
    else if !IsTokenChar(s[0]) then Tokens(s[1..])
    else
      var w := Run(s);
      [w] + Tokens(s[|w|..])
  }

  /** The run at the front of `s` ends exactly where the token characters end. */
  lemma RunLength(s: string, n: nat)
    requires n <= |s|
    requires forall j :: 0 <= j < n ==> IsTokenChar(s[j])
    requires n == |s| || !IsTokenChar(s[n])
    ensures Run(s) == s[..n]
  {
  }

  /** The tokens of `s`, read from its first character. */
  lemma TokensCons(s: string)
    requires s != []
    ensures !IsTokenChar(s[0]) ==> Tokens(s) == Tokens(s[1..])
    ensures IsTokenChar(s[0]) ==>
      var w := Run(s);
      w != [] && Tokens(s) == [w] + Tokens(s[|w|..])
  {
  }

  /** A leading run of `n` token characters, ended by the end of `s` or by another character,
      is the first token of `s`. */
  lemma TokensSplitRun(s: string, n: nat)
    requires n <= |s|
    requires forall j :: 0 <= j < n ==> IsTokenChar(s[j])
    requires n == |s| || !IsTokenChar(s[n])
    ensures Tokens(s) == (if n == 0 then [] else [s[..n]]) + Tokens(s[n..])
  {
    if n == 0 {
      assert s[n..] == s;
    } else {
      RunLength(s, n);
      TokensCons(s);
    }
  }

  /** Characters that are not token characters never change the tokens. */
  lemma {:induction false} TokensSkipRun(s: string, inRun: char -> bool)
    requires forall c :: inRun(c) ==> !IsTokenChar(c)
    ensures Tokens(SkipRun(s, inRun)) == Tokens(s)
    decreases |s|
  {
    if s != [] && inRun(s[0]) {
      TokensCons(s);
      TokensSkipRun(s[1..], inRun);
    }
  }

  /** A token character in front of `rest` joins the first token of `rest` when `rest`
      starts with a token character, and forms a token of its own otherwise. */
  lemma TokensConsToken(c: char, rest: string)
    requires IsTokenChar(c)
    ensures var t := Tokens(rest);
      if rest != [] && IsTokenChar(rest[0])
      then |t| > 0 && Tokens([c] + rest) == [[c] + t[0]] + t[1..]
      else Tokens([c] + rest) == [[c]] + t
  {
    var s := [c] + rest;
    assert s[1..] == rest;
    var w := Run(rest);
    assert Run(s) == [c] + w;
    TokensCons(s);
    assert s[|[c] + w|..] == rest[|w|..];
    if rest != [] && IsTokenChar(rest[0]) {
      TokensCons(rest);
    } else {
      assert rest[|w|..] == rest;
    }
  }

  lemma TrimWithoutSpaces(s: string)
    requires forall j :: 0 <= j < |s| ==> !IsSpace(s[j])
    ensures Trim(s) == s
  {
  }

  /** Splitting a separator-free text on whitespace and dropping the empty fields gives its tokens. */
  lemma {:induction false} SplitGivesTokens(t: string)
    requires forall j :: 0 <= j < |t| ==> !IsSeparator(t[j])
    ensures NonEmpty(SplitOnSpaces(t)) == Tokens(t)
    decreases |t|
  {
    var field := TakeRun(t, c => !IsSpace(c));
    TokensSplitRun(t, |field|);
    if |field| == |t| {
      assert t[|t|..] == [] && t[..|t|] == t;
      assert Tokens([]) == [];
      assert SplitOnSpaces(t) == [t];
      assert NonEmpty([t]) == (if t == [] then [] else [t]) + NonEmpty([]);
    } else {
      var gap := t[|field|..];
      var rest := SkipRun(gap, IsSpace);
      SplitGivesTokens(rest);
      TokensSkipRun(gap, IsSpace);
      var fields := SplitOnSpaces(t);
      assert fields == [field] + SplitOnSpaces(rest);
      assert fields[1..] == SplitOnSpaces(rest);
    }
  }

  /** Collapsing separator runs into spaces does not change the tokens. */
  lemma {:induction false} ReplaceKeepsTokens(s: string)
    ensures Tokens(ReplaceSeparators(s)) == Tokens(s)
    decreases |s|
  {
    if s != [] {
      if IsSeparator(s[0]) {
        ReplaceKeepsTokens(SkipRun(s[1..], IsSeparator));
        ReplaceSeparatorRun(s);
      } else {
        ReplaceKeepsTokens(s[1..]);
        ReplaceOther(s);
      }
    }
  }

  lemma ReplaceSeparatorRun(s: string)
    requires s != [] && IsSeparator(s[0])
    requires Tokens(ReplaceSeparators(SkipRun(s[1..], IsSeparator))) == Tokens(SkipRun(s[1..], IsSeparator))
    ensures Tokens(ReplaceSeparators(s)) == Tokens(s)
  {
    var r := ReplaceSeparators(s);
    var rest := SkipRun(s[1..], IsSeparator);
    TokensCons(s);
    TokensSkipRun(s[1..], IsSeparator);
    TokensCons(r);
    assert r[1..] == ReplaceSeparators(rest);
  }

  lemma ReplaceOther(s: string)
    requires s != [] && !IsSeparator(s[0])
    requires Tokens(ReplaceSeparators(s[1..])) == Tokens(s[1..])
    ensures Tokens(ReplaceSeparators(s)) == Tokens(s)
  {
    if IsSpace(s[0]) {
      ReplaceSpace(s);
    } else {
      ReplaceTokenChar(s);
    }
  }

  lemma ReplaceSpace(s: string)
    requires s != [] && IsSpace(s[0])
    requires Tokens(ReplaceSeparators(s[1..])) == Tokens(s[1..])
    ensures Tokens(ReplaceSeparators(s)) == Tokens(s)
  {
    var r := ReplaceSeparators(s);
    var rest := ReplaceSeparators(s[1..]);
    assert r == [s[0]] + rest;
    TokensCons(s);
    TokensCons(r);
    assert r[1..] == rest;
  }

  lemma ReplaceTokenChar(s: string)
    requires s != [] && IsTokenChar(s[0])
    requires Tokens(ReplaceSeparators(s[1..])) == Tokens(s[1..])
    ensures Tokens(ReplaceSeparators(s)) == Tokens(s)
  {
    var c := s[0];
    var r := ReplaceSeparators(s);
    var rest := ReplaceSeparators(s[1..]);
    assert r == [c] + rest;
    assert s == [c] + s[1..];
    TokensConsToken(c, s[1..]);
    TokensConsToken(c, rest);
    assert (rest != [] && IsTokenChar(rest[0])) == (s[1..] != [] && IsTokenChar(s[1..][0]));
  }

  /** The tokeniser yields exactly the maximal runs of characters that are neither
      whitespace nor one of `.`, `,` and `/`, in order. */
  lemma TokenizeIsTokens(raw: string)
    ensures Tokenize(raw) == Tokens(raw)
  {
    var t := ReplaceSeparators(raw);
    var fields := SplitOnSpaces(t);
    var trimmed := seq(|fields|, k requires 0 <= k < |fields| => Trim(fields[k]));
    forall k | 0 <= k < |fields| ensures trimmed[k] == fields[k] {
      TrimWithoutSpaces(fields[k]);
    }
    assert trimmed == fields;
    SplitGivesTokens(t);
    ReplaceKeepsTokens(raw);
  }

  /** Every token is a non-empty run of token characters. */
  predicate TokenRuns(tokens: seq<string>) {
    forall k :: 0 <= k < |tokens| ==>
      tokens[k] != [] && forall j :: 0 <= j < |tokens[k]| ==> IsTokenChar(tokens[k][j])
  }

  /** Tokens are never empty and never contain whitespace, `.`, `,` or `/`. */
  lemma TokenizeShape(raw: string)
    ensures forall k :: 0 <= k < |Tokenize(raw)| ==> Tokenize(raw)[k] != []
    ensures forall k, j :: 0 <= k < |Tokenize(raw)| && 0 <= j < |Tokenize(raw)[k]| ==>
      !IsSpace(Tokenize(raw)[k][j]) && !IsSeparator(Tokenize(raw)[k][j])
  {
    TokenizeIsTokens(raw);
    TokensShape(raw);
    var tokens := Tokenize(raw);
    assert TokenRuns(tokens);
  }

  /** The tokens are non-empty runs of token characters. */
  lemma {:induction false} TokensShape(s: string)
    ensures TokenRuns(Tokens(s))
    decreases |s|
  {
    if s != [] {
      if !IsTokenChar(s[0]) {
        TokensShape(s[1..]);
      } else {
        var w := Run(s);
        TokensShape(s[|w|..]);
        assert TokenRuns([w]);
        assert Tokens(s) == [w] + Tokens(s[|w|..]);
      }
    }
  }

  /** Text joined at a character outside tokens has the tokens of its parts. */
  lemma {:induction false} TokensAppend(a: string, b: string)
    requires a == [] || b == [] || !IsTokenChar(a[|a| - 1]) || !IsTokenChar(b[0])
    ensures Tokens(a + b) == Tokens(a) + Tokens(b)
    decreases |a|
  {
    if a == [] {
      assert a + b == b;
    } else if !IsTokenChar(a[0]) {
      TokensAppend(a[1..], b);
      TokensAppendGap(a, b);
    } else {
      var n := |Run(a)|;
      TokensAppend(a[n..], b);
      TokensAppendToken(a, b, n);
    }
  }

  /** A step of `TokensAppend` over a leading character outside tokens. */
  lemma TokensAppendGap(a: string, b: string)
    requires a != [] && !IsTokenChar(a[0])
    requires Tokens(a[1..] + b) == Tokens(a[1..]) + Tokens(b)
    ensures Tokens(a + b) == Tokens(a) + Tokens(b)
  {
    assert (a + b)[0] == a[0];
    assert (a + b)[1..] == a[1..] + b;
    TokensCons(a);
    TokensCons(a + b);
  }

  /** A step of `TokensAppend` over the leading token of `a`, of length `n`. */
  lemma TokensAppendToken(a: string, b: string, n: nat)
    requires a != [] && IsTokenChar(a[0]) && n == |Run(a)|
    requires b == [] || !IsTokenChar(a[|a| - 1]) || !IsTokenChar(b[0])
    requires Tokens(a[n..] + b) == Tokens(a[n..]) + Tokens(b)
    ensures Tokens(a + b) == Tokens(a) + Tokens(b)
  {
    TokensOfJoinedRun(a, b);
    TokensCons(a);
    PrependAssoc(Run(a), Tokens(a[n..]), Tokens(b));
  }

  lemma PrependAssoc(w: string, x: seq<string>, y: seq<string>)
    ensures [w] + (x + y) == ([w] + x) + y
  {
  }

  /** The first token of `a + b` is that of `a`, and the rest of `a` is read on into `b`. */
  lemma TokensOfJoinedRun(a: string, b: string)
    requires a != [] && IsTokenChar(a[0])
    requires b == [] || !IsTokenChar(a[|a| - 1]) || !IsTokenChar(b[0])
    ensures Tokens(a + b) == [Run(a)] + Tokens(a[|Run(a)|..] + b)
  {
    var w := Run(a);
    assert (a + b)[0] == a[0];
    assert (a + b)[|w|..] == a[|w|..] + b;
    RunAppend(a, b);
    TokensCons(a + b);
  }

  /** The first token of `a` is the first token of `a + b` when they are joined outside a token. */
  lemma RunAppend(a: string, b: string)
    requires a != [] && IsTokenChar(a[0])
    requires b == [] || !IsTokenChar(a[|a| - 1]) || !IsTokenChar(b[0])
    ensures Run(a + b) == Run(a)
  {
    var w := Run(a);
    var n := |w|;
    assert n == |a| ==> a[|a| - 1] == w[n - 1];
    assert forall j :: 0 <= j < n ==> (a + b)[j] == w[j];
    assert n < |a| ==> (a + b)[n] == a[n];
    assert n == |a| && b != [] ==> (a + b)[n] == b[0];
    RunLength(a + b, n);
    assert (a + b)[..n] == w;
  }

  // ---------------------------------------------------------------------------------------
  // Classification.

  /** `/^\d+$/.test(token)`. */
  predicate IsNumberToken(t: string) {
    |t| > 0 && forall j :: 0 <= j < |t| ==> IsDigit(t[j])
  }

  /** `/^[A-Za-z]$/.test(token)`. */
  predicate IsLetterToken(t: string) {
    |t| == 1 && IsAsciiLetter(t[0])
  }

  /** What the final `else` branch receives. */
  predicate IsWordToken(t: string) {
    !IsNumberToken(t) && !IsLetterToken(t)
  }

  /** The tokens satisfying `p`, in their original order. */
  function Select(tokens: seq<string>, p: string -> bool): (r: seq<string>)
    ensures |r| <= |tokens|
    ensures forall k :: 0 <= k < |r| ==> p(r[k]) && r[k] in tokens
  {
    if tokens == [] then []
    else (if p(tokens[0]) then [tokens[0]] else []) + Select(tokens[1..], p)
  }

  function UpperAll(tokens: seq<string>): (r: seq<string>)
    ensures |r| == |tokens|
  {
    seq(|tokens|, k requires 0 <= k < |tokens| => Upper(tokens[k]))
  }

  /** The list `Number`: the all-digit tokens, unchanged. */
  function Numbers(tokens: seq<string>): seq<string> {
    Select(tokens, IsNumberToken)
  }

  /** The list `Alphabet`: the single-letter tokens, upper-cased. */
  function Alphabets(tokens: seq<string>): seq<string> {
    UpperAll(Select(tokens, IsLetterToken))
  }

  /** The list `Word`: every other token, upper-cased. */
  function Words(tokens: seq<string>): seq<string> {
    UpperAll(Select(tokens, IsWordToken))
  }

  /** The record `{ Alphabet, Number, Word }` that `classifyTokens` returns. */
  datatype Classified = Classified(alphabet: seq<string>, number: seq<string>, word: seq<string>)

  /** `classifyTokens(raw)`: tokenise, then file each token under exactly one list. */
  method ClassifyTokens(raw: string) returns (c: Classified)
    ensures c.number == Numbers(Tokenize(raw))
    ensures c.alphabet == Alphabets(Tokenize(raw))
    ensures c.word == Words(Tokenize(raw))
  {
    c := FileTokens(Tokenize(raw));
  }

  /** The loop of `classifyTokens`: each token is pushed onto the list its tests select. */
  method FileTokens(tokens: seq<string>) returns (c: Classified)
    ensures c.number == Numbers(tokens)
    ensures c.alphabet == Alphabets(tokens)
    ensures c.word == Words(tokens)
  {
    var alphabets: seq<string> := [];
    var numbers: seq<string> := [];
    var words: seq<string> := [];
    for i := 0 to |tokens|
      invariant numbers == Numbers(tokens[..i])
      invariant alphabets == Alphabets(tokens[..i])
      invariant words == Words(tokens[..i])
    {
      var token := tokens[i];
      FileOne(tokens[..i], token);
      assert tokens[..i + 1] == tokens[..i] + [token];
      if IsNumberToken(token) {
        numbers := numbers + [token];
      } else if IsLetterToken(token) {
        alphabets := alphabets + [Upper(token)];
      } else {
        words := words + [Upper(token)];
      }
    }
    assert tokens[..|tokens|] == tokens;
    c := Classified(alphabets, numbers, words);
  }

  /** Filing one more token extends exactly one of the three lists, by that token. */
  lemma FileOne(tokens: seq<string>, t: string)
    ensures Numbers(tokens + [t]) == Numbers(tokens) + (if IsNumberToken(t) then [t] else [])
    ensures Alphabets(tokens + [t]) == Alphabets(tokens) + (if IsLetterToken(t) then [Upper(t)] else [])
    ensures Words(tokens + [t]) == Words(tokens) + (if IsWordToken(t) then [Upper(t)] else [])
  {
    SelectSnoc(tokens, t, IsNumberToken);
    UpperSelectSnoc(tokens, t, IsLetterToken);
    UpperSelectSnoc(tokens, t, IsWordToken);
  }

  /** Selecting from a list with one more token appends that token when it is selected. */
  lemma SelectSnoc(tokens: seq<string>, t: string, p: string -> bool)
    ensures Select(tokens + [t], p) == Select(tokens, p) + (if p(t) then [t] else [])
  {
    SelectAppend(tokens, [t], p);
    assert Select([t], p) == (if p(t) then [t] else []) + Select([], p);
  }

  /** The upper-cased selection from a list with one more token. */
  lemma UpperSelectSnoc(tokens: seq<string>, t: string, p: string -> bool)
    ensures UpperAll(Select(tokens + [t], p)) == UpperAll(Select(tokens, p)) + (if p(t) then [Upper(t)] else [])
  {
    SelectSnoc(tokens, t, p);
    var tail := if p(t) then [t] else [];
    UpperAllAppend(Select(tokens, p), tail);
    assert UpperAll(tail) == if p(t) then [Upper(t)] else [];
  }

  lemma UpperAllAppend(a: seq<string>, b: seq<string>)
    ensures UpperAll(a + b) == UpperAll(a) + UpperAll(b)
  {
  }

  /** Selecting from joined lists joins the selections: the relative order of tokens is kept. */
  lemma {:induction false} SelectAppend(a: seq<string>, b: seq<string>, p: string -> bool)
    ensures Select(a + b, p) == Select(a, p) + Select(b, p)
    decreases |a|
  {
    if a == [] {
      assert a + b == b;
    } else {
      assert (a + b)[1..] == a[1..] + b;
      SelectAppend(a[1..], b, p);
    }
  }

  /** Every token lands in exactly one of the three lists. */
  lemma ExactlyOneCategory(t: string)
    ensures IsNumberToken(t) || IsLetterToken(t) || IsWordToken(t)
    ensures !(IsNumberToken(t) && IsLetterToken(t))
    ensures IsWordToken(t) ==> !IsNumberToken(t) && !IsLetterToken(t)
  {
  }

  /** The three lists together are as long as the token list. */
  lemma {:induction false} PartitionCount(tokens: seq<string>)
    ensures |Numbers(tokens)| + |Alphabets(tokens)| + |Words(tokens)| == |tokens|
  {
    if tokens != [] {
      PartitionCount(tokens[1..]);
    }
  }

  /** `Number` holds exactly the all-digit tokens. */
  lemma {:induction false} NumbersExactly(tokens: seq<string>, x: string)
    ensures x in Numbers(tokens) <==> x in tokens && IsNumberToken(x)
  {
    if tokens != [] {
      NumbersExactly(tokens[1..], x);
      assert tokens == [tokens[0]] + tokens[1..];
    }
  }

  /** `Alphabet` holds exactly the upper-cased single-letter tokens; each is one capital letter. */
  lemma {:induction false} AlphabetsExactly(tokens: seq<string>, x: string)
    ensures x in Alphabets(tokens) <==> exists k :: 0 <= k < |tokens| && IsLetterToken(tokens[k]) && Upper(tokens[k]) == x
    ensures x in Alphabets(tokens) ==> |x| == 1 && 'A' <= x[0] <= 'Z'
  {
    var sel := Select(tokens, IsLetterToken);
    SelectedExactly(tokens, IsLetterToken);
    if x in Alphabets(tokens) {
      var i :| 0 <= i < |sel| && Upper(sel[i]) == x;
      assert IsLetterToken(sel[i]);
    }
    if exists k :: 0 <= k < |tokens| && IsLetterToken(tokens[k]) && Upper(tokens[k]) == x {
      var k :| 0 <= k < |tokens| && IsLetterToken(tokens[k]) && Upper(tokens[k]) == x;
      var i :| 0 <= i < |sel| && sel[i] == tokens[k];
      assert UpperAll(sel)[i] == x;
    }
  }

  /** `Word` holds exactly the upper-cased tokens that are neither numbers nor single letters. */
  lemma WordsExactly(tokens: seq<string>, x: string)
    ensures x in Words(tokens) <==> exists k :: 0 <= k < |tokens| && IsWordToken(tokens[k]) && Upper(tokens[k]) == x
  {
    var sel := Select(tokens, IsWordToken);
    SelectedExactly(tokens, IsWordToken);
    if x in Words(tokens) {
      var i :| 0 <= i < |sel| && Upper(sel[i]) == x;
    }
    if exists k :: 0 <= k < |tokens| && IsWordToken(tokens[k]) && Upper(tokens[k]) == x {
      var k :| 0 <= k < |tokens| && IsWordToken(tokens[k]) && Upper(tokens[k]) == x;
      var i :| 0 <= i < |sel| && sel[i] == tokens[k];
      assert UpperAll(sel)[i] == x;
    }
  }

  lemma {:induction false} SelectedExactly(tokens: seq<string>, p: string -> bool)
    ensures forall t :: t in Select(tokens, p) <==> t in tokens && p(t)
  {
    if tokens != [] {
      SelectedExactly(tokens[1..], p);
      assert tokens == [tokens[0]] + tokens[1..];
    }
  }

  /** A one-character token that is neither a digit nor a letter, such as `!`, is filed as a
      Word, although the branch is commented as taking tokens longer than one character. */
  lemma SingleSymbolIsWord(c: char)
    requires !IsDigit(c) && !IsAsciiLetter(c)
    ensures IsWordToken([c]) && Words([[c]]) == [Upper([c])]
  {
    assert !IsDigit([c][0]) && !IsAsciiLetter([c][0]);
    assert !IsNumberToken([c]) && !IsLetterToken([c]);
    assert Select([[c]], IsWordToken) == [[c]];
  }

  lemma {:induction false} TokensOfGap(g: string)
    requires forall j :: 0 <= j < |g| ==> !IsTokenChar(g[j])
    ensures Tokens(g) == []
    decreases |g|
  {
    if g != [] {
      TokensCons(g);
      TokensOfGap(g[1..]);
    }
  }

  /** A word followed by a run of non-token characters is the only token. */
  lemma TokensOfWordThenGap(w: string, after: string)
    requires w != [] && forall j :: 0 <= j < |w| ==> IsTokenChar(w[j])
    requires forall j :: 0 <= j < |after| ==> !IsTokenChar(after[j])
    ensures Tokens(w + after) == [w]
  {
    var s := w + after;
    assert s[..|w|] == w && s[|w|..] == after;
    TokensSplitRun(s, |w|);
    TokensOfGap(after);
  }

  /** Text made of `words[k]` followed by `gaps[k]`, for each `k` in order. */
  function Weave(words: seq<string>, gaps: seq<string>): string
    requires |words| == |gaps|
  {
    if words == [] then [] else words[0] + gaps[0] + Weave(words[1..], gaps[1..])
  }

  /** Each word is a token, each gap holds no token character, and only the last gap may be
      empty. */
  predicate WellWoven(words: seq<string>, gaps: seq<string>)
    requires |words| == |gaps|
  {
    words == [] ||
    (words[0] != [] && AllTokenChars(words[0]) && NoTokenChars(gaps[0]) &&
     (|words| > 1 ==> gaps[0] != []) &&
     WellWoven(words[1..], gaps[1..]))
  }

  predicate AllTokenChars(s: string) {
    s == [] || (IsTokenChar(s[0]) && AllTokenChars(s[1..]))
  }

  predicate NoTokenChars(s: string) {
    s == [] || (!IsTokenChar(s[0]) && NoTokenChars(s[1..]))
  }

  lemma {:induction false} AllTokenCharsAt(s: string)
    requires AllTokenChars(s)
    ensures forall j :: 0 <= j < |s| ==> IsTokenChar(s[j])
    decreases |s|
  {
    if s != [] {
      AllTokenCharsAt(s[1..]);
      assert forall j :: 1 <= j < |s| ==> s[j] == s[1..][j - 1];
    }
  }

  lemma {:induction false} NoTokenCharsAt(s: string)
    requires NoTokenChars(s)
    ensures forall j :: 0 <= j < |s| ==> !IsTokenChar(s[j])
    decreases |s|
  {
    if s != [] {
      NoTokenCharsAt(s[1..]);
      assert forall j :: 1 <= j < |s| ==> s[j] == s[1..][j - 1];
    }
  }

  /** The tokens of well-woven text are its words. */
  lemma {:induction false} TokensWeave(words: seq<string>, gaps: seq<string>)
    requires |words| == |gaps| && WellWoven(words, gaps)
    ensures Tokens(Weave(words, gaps)) == words
    decreases |words|
  {
    if words == [] {
      assert Weave(words, gaps) == [];
    } else {
      var head := words[0] + gaps[0];
      var rest := Weave(words[1..], gaps[1..]);
      TokensWeave(words[1..], gaps[1..]);
      AllTokenCharsAt(words[0]);
      NoTokenCharsAt(gaps[0]);
      TokensOfWordThenGap(words[0], gaps[0]);
      assert |words| == 1 ==> rest == [];
      assert gaps[0] != [] ==> head[|head| - 1] == gaps[0][|gaps[0]| - 1];
      TokensAppend(head, rest);
      assert words == [words[0]] + words[1..];
    }
  }

  // The text of `RAW_INPUT` in seven runs, each a token list and the gaps after its tokens.

  const RAW_DIGITS: seq<string> := ["1", "2", "3", "4", "5", "6", "8", "9"]
  const RAW_DIGITS_GAPS: seq<string> := ["\n ", "\n ", "\n ", "\n ", "\n ", "\n ", "\n", "\n "]

  const RAW_LETTERS_A_H: seq<string> := ["A", "B", "C", "D", "E", "F", "G", "H"]
  const RAW_LETTERS_A_H_GAPS: seq<string> := ["\n ", "\n", "\n", "\n ", "\n", "\n", "\n", "\n"]

  const RAW_HELLO: seq<string> := ["HELLO"]
  const RAW_HELLO_GAPS: seq<string> := ["\n,"]

  const RAW_LETTERS_I_N: seq<string> := ["I", "J", "K", "L", "M", "N"]
  const RAW_LETTERS_I_N_GAPS: seq<string> := [",\n ", ",", ",", ",,", ",", "\n,"]

  const RAW_NAMASTE: seq<string> := ["NAMASTE"]
  const RAW_NAMASTE_GAPS: seq<string> := [","]

  const RAW_LETTERS_O_T: seq<string> := ["O", "P", "Q", "R", "S", "T"]
  const RAW_LETTERS_O_T_GAPS: seq<string> := [",", ",", ",", ",", ",", ",,"]

  const RAW_LETTERS_U_Z: seq<string> := ["U", "V", "X", "Y", "Z"]
  const RAW_LETTERS_U_Z_GAPS: seq<string> := [",", ",", ",", ",", ""]

  /** The tokens of `RAW_INPUT`, in order. */
  const RAW_WORDS: seq<string> :=
    RAW_DIGITS + RAW_LETTERS_A_H + RAW_HELLO
    + RAW_LETTERS_I_N + RAW_NAMASTE + RAW_LETTERS_O_T + RAW_LETTERS_U_Z

  /** What separates consecutive tokens of `RAW_INPUT`: line breaks, the leading spaces of
      lines, and commas. */
  const RAW_GAPS: seq<string> :=
    RAW_DIGITS_GAPS + RAW_LETTERS_A_H_GAPS + RAW_HELLO_GAPS
    + RAW_LETTERS_I_N_GAPS + RAW_NAMASTE_GAPS
    + RAW_LETTERS_O_T_GAPS + RAW_LETTERS_U_Z_GAPS

  /** `RAW_INPUT`, the fixed text the coach page classifies: a template literal of twenty
      lines, written here as its tokens and the runs of characters between them. */
  const RAW_INPUT: string := Weave(RAW_WORDS, RAW_GAPS)

  /** Joining two well-woven texts keeps them well woven when the first ends in a gap. */
  lemma {:induction false} WellWovenAppend(w1: seq<string>, g1: seq<string>, w2: seq<string>, g2: seq<string>)
    requires |w1| == |g1| && |w2| == |g2|
    requires WellWoven(w1, g1) && WellWoven(w2, g2)
    requires w1 != [] && w2 != [] ==> g1[|g1| - 1] != []
    ensures WellWoven(w1 + w2, g1 + g2)
    decreases |w1|
  {
    if w1 != [] {
      WellWovenAppend(w1[1..], g1[1..], w2, g2);
      assert (w1 + w2)[1..] == w1[1..] + w2 && (g1 + g2)[1..] == g1[1..] + g2;
      assert (w1 + w2)[0] == w1[0] && (g1 + g2)[0] == g1[0];
      assert |w1| == 1 && w2 != [] ==> g1[0] == g1[|g1| - 1];
    } else {
      assert w1 + w2 == w2 && g1 + g2 == g2;
    }
  }

  lemma RawInputWoven1()
    ensures WellWoven(RAW_DIGITS, RAW_DIGITS_GAPS) && RAW_DIGITS_GAPS[|RAW_DIGITS_GAPS| - 1] != []
  {
    var w1, g1 := ["1", "2", "3", "4"], ["\n ", "\n ", "\n ", "\n "];
    var w2, g2 := ["5", "6", "8", "9"], ["\n ", "\n ", "\n", "\n "];
    RawInputWoven1a();
    RawInputWoven1b();
    WellWovenAppend(w1, g1, w2, g2);
    assert w1 + w2 == ["1", "2", "3", "4", "5", "6", "8", "9"];
    assert g1 + g2 == ["\n ", "\n ", "\n ", "\n ", "\n ", "\n ", "\n", "\n "];
  }

  lemma RawInputWoven1a()
    ensures WellWoven(["1", "2", "3", "4"], ["\n ", "\n ", "\n ", "\n "])
  {
  }

  lemma RawInputWoven1b()
    ensures WellWoven(["5", "6", "8", "9"], ["\n ", "\n ", "\n", "\n "])
  {
  }

  lemma RawInputWoven2()
    ensures WellWoven(RAW_LETTERS_A_H, RAW_LETTERS_A_H_GAPS) && RAW_LETTERS_A_H_GAPS[|RAW_LETTERS_A_H_GAPS| - 1] != []
  {
    var w1, g1 := ["A", "B", "C", "D"], ["\n ", "\n", "\n", "\n "];
    var w2, g2 := ["E", "F", "G", "H"], ["\n", "\n", "\n", "\n"];
    RawInputWoven2a();
    RawInputWoven2b();
    WellWovenAppend(w1, g1, w2, g2);
    assert w1 + w2 == ["A", "B", "C", "D", "E", "F", "G", "H"];
    assert g1 + g2 == ["\n ", "\n", "\n", "\n ", "\n", "\n", "\n", "\n"];
  }

  lemma RawInputWoven2a()
    ensures WellWoven(["A", "B", "C", "D"], ["\n ", "\n", "\n", "\n "])
  {
  }

  lemma RawInputWoven2b()
    ensures WellWoven(["E", "F", "G", "H"], ["\n", "\n", "\n", "\n"])
  {
  }

  lemma RawInputWoven3()
    ensures WellWoven(RAW_HELLO, RAW_HELLO_GAPS) && RAW_HELLO_GAPS[|RAW_HELLO_GAPS| - 1] != []
  {
    var w, g := ["HELLO"], ["\n,"];
    assert WellWoven(w, g);
  }

  lemma RawInputWoven4()
    ensures WellWoven(RAW_LETTERS_I_N, RAW_LETTERS_I_N_GAPS) && RAW_LETTERS_I_N_GAPS[|RAW_LETTERS_I_N_GAPS| - 1] != []
  {
    var w1, g1 := ["I", "J", "K"], [",\n ", ",", ","];
    var w2, g2 := ["L", "M", "N"], [",,", ",", "\n,"];
    RawInputWoven4a();
    RawInputWoven4b();
    WellWovenAppend(w1, g1, w2, g2);
    assert w1 + w2 == ["I", "J", "K", "L", "M", "N"];
    assert g1 + g2 == [",\n ", ",", ",", ",,", ",", "\n,"];
  }

  lemma RawInputWoven4a()
    ensures WellWoven(["I", "J", "K"], [",\n ", ",", ","])
  {
  }

  lemma RawInputWoven4b()
    ensures WellWoven(["L", "M", "N"], [",,", ",", "\n,"])
  {
  }

  lemma RawInputWoven5()
    ensures WellWoven(RAW_NAMASTE, RAW_NAMASTE_GAPS) && RAW_NAMASTE_GAPS[|RAW_NAMASTE_GAPS| - 1] != []
  {
    var w, g := ["NAMASTE"], [","];
    assert WellWoven(w, g);
  }

  lemma RawInputWoven6()
    ensures WellWoven(RAW_LETTERS_O_T, RAW_LETTERS_O_T_GAPS) && RAW_LETTERS_O_T_GAPS[|RAW_LETTERS_O_T_GAPS| - 1] != []
  {
    var w1, g1 := ["O", "P", "Q"], [",", ",", ","];
    var w2, g2 := ["R", "S", "T"], [",", ",", ",,"];
    RawInputWoven6a();
    RawInputWoven6b();
    WellWovenAppend(w1, g1, w2, g2);
    assert w1 + w2 == ["O", "P", "Q", "R", "S", "T"];
    assert g1 + g2 == [",", ",", ",", ",", ",", ",,"];
  }

  lemma RawInputWoven6a()
    ensures WellWoven(["O", "P", "Q"], [",", ",", ","])
  {
  }

  lemma RawInputWoven6b()
    ensures WellWoven(["R", "S", "T"], [",", ",", ",,"])
  {
  }

  lemma RawInputWoven7()
    ensures WellWoven(RAW_LETTERS_U_Z, RAW_LETTERS_U_Z_GAPS)
  {
    var w1, g1 := ["U", "V"], [",", ","];
    var w2, g2 := ["X", "Y", "Z"], [",", ",", ""];
    RawInputWoven7a();
    RawInputWoven7b();
    WellWovenAppend(w1, g1, w2, g2);
    assert w1 + w2 == ["U", "V", "X", "Y", "Z"];
    assert g1 + g2 == [",", ",", ",", ",", ""];
  }

  lemma RawInputWoven7a()
    ensures WellWoven(["U", "V"], [",", ","])
  {
  }

  lemma RawInputWoven7b()
    ensures WellWoven(["X", "Y", "Z"], [",", ",", ""])
  {
  }

  lemma RawInputWoven()
    ensures WellWoven(RAW_WORDS, RAW_GAPS)
  {
    RawInputWoven1();
    RawInputWoven2();
    RawInputWoven3();
    RawInputWoven4();
    RawInputWoven5();
    RawInputWoven6();
    RawInputWoven7();
    WellWovenAppend(RAW_DIGITS,
      RAW_DIGITS_GAPS,
      RAW_LETTERS_A_H, RAW_LETTERS_A_H_GAPS);
    WellWovenAppend(RAW_DIGITS + RAW_LETTERS_A_H,
      RAW_DIGITS_GAPS + RAW_LETTERS_A_H_GAPS,
      RAW_HELLO, RAW_HELLO_GAPS);
    WellWovenAppend(RAW_DIGITS + RAW_LETTERS_A_H + RAW_HELLO,
      RAW_DIGITS_GAPS + RAW_LETTERS_A_H_GAPS + RAW_HELLO_GAPS,
      RAW_LETTERS_I_N, RAW_LETTERS_I_N_GAPS);
    WellWovenAppend(RAW_DIGITS + RAW_LETTERS_A_H + RAW_HELLO + RAW_LETTERS_I_N,
      RAW_DIGITS_GAPS + RAW_LETTERS_A_H_GAPS + RAW_HELLO_GAPS + RAW_LETTERS_I_N_GAPS,
      RAW_NAMASTE, RAW_NAMASTE_GAPS);
    WellWovenAppend(RAW_DIGITS + RAW_LETTERS_A_H + RAW_HELLO + RAW_LETTERS_I_N + RAW_NAMASTE,
      RAW_DIGITS_GAPS + RAW_LETTERS_A_H_GAPS + RAW_HELLO_GAPS + RAW_LETTERS_I_N_GAPS + RAW_NAMASTE_GAPS,
      RAW_LETTERS_O_T, RAW_LETTERS_O_T_GAPS);
    WellWovenAppend(RAW_DIGITS + RAW_LETTERS_A_H + RAW_HELLO + RAW_LETTERS_I_N + RAW_NAMASTE + RAW_LETTERS_O_T,
      RAW_DIGITS_GAPS + RAW_LETTERS_A_H_GAPS + RAW_HELLO_GAPS + RAW_LETTERS_I_N_GAPS + RAW_NAMASTE_GAPS + RAW_LETTERS_O_T_GAPS,
      RAW_LETTERS_U_Z, RAW_LETTERS_U_Z_GAPS);
  }

  /** The tokens of `RAW_INPUT` are its words: 7 and W are absent, and HELLO and NAMASTE are
      the only tokens longer than one character. */
  lemma RawInputTokens()
    ensures Tokenize(RAW_INPUT) == RAW_WORDS
  {
    RawInputWoven();
    TokensWeave(RAW_WORDS, RAW_GAPS);
    TokenizeIsTokens(RAW_INPUT);
  }

  /** Classifying joined lists joins the three classifications. */
  lemma ClassifyAppend(a: seq<string>, b: seq<string>)
    ensures Numbers(a + b) == Numbers(a) + Numbers(b)
    ensures Alphabets(a + b) == Alphabets(a) + Alphabets(b)
    ensures Words(a + b) == Words(a) + Words(b)
  {
    SelectAppend(a, b, IsNumberToken);
    SelectAppend(a, b, IsLetterToken);
    SelectAppend(a, b, IsWordToken);
    UpperAllAppend(Select(a, IsLetterToken), Select(b, IsLetterToken));
    UpperAllAppend(Select(a, IsWordToken), Select(b, IsWordToken));
  }

  predicate IsCapital(c: char) {
    'A' <= c <= 'Z'
  }

  /** Every token is one decimal digit. */
  predicate DigitTokens(tokens: seq<string>) {
    tokens == [] || (|tokens[0]| == 1 && IsDigit(tokens[0][0]) && DigitTokens(tokens[1..]))
  }

  /** Every token is one capital letter. */
  predicate CapitalTokens(tokens: seq<string>) {
    tokens == [] || (|tokens[0]| == 1 && IsCapital(tokens[0][0]) && CapitalTokens(tokens[1..]))
  }

  predicate AllCapitals(s: string) {
    s == [] || (IsCapital(s[0]) && AllCapitals(s[1..]))
  }

  lemma {:induction false} DigitTokensClassified(tokens: seq<string>)
    requires DigitTokens(tokens)
    ensures Numbers(tokens) == tokens && Alphabets(tokens) == [] && Words(tokens) == []
    decreases |tokens|
  {
    if tokens != [] {
      DigitTokensClassified(tokens[1..]);
      ClassifyAppend([tokens[0]], tokens[1..]);
      assert [tokens[0]] + tokens[1..] == tokens;
      DigitTokenClassified(tokens[0]);
    }
  }

  /** One decimal digit is filed, unchanged, as a Number. */
  lemma DigitTokenClassified(t: string)
    requires |t| == 1 && IsDigit(t[0])
    ensures Numbers([t]) == [t] && Alphabets([t]) == [] && Words([t]) == []
  {
    assert IsNumberToken(t) && !IsLetterToken(t) && !IsWordToken(t);
    assert Select([t], IsNumberToken) == [t];
  }

  lemma {:induction false} CapitalTokensClassified(tokens: seq<string>)
    requires CapitalTokens(tokens)
    ensures Numbers(tokens) == [] && Alphabets(tokens) == tokens && Words(tokens) == []
    decreases |tokens|
  {
    if tokens != [] {
      CapitalTokensClassified(tokens[1..]);
      ClassifyAppend([tokens[0]], tokens[1..]);
      assert [tokens[0]] + tokens[1..] == tokens;
      CapitalTokenClassified(tokens[0]);
    }
  }

  /** One capital letter is filed, unchanged, as an Alphabet. */
  lemma CapitalTokenClassified(t: string)
    requires |t| == 1 && IsCapital(t[0])
    ensures Numbers([t]) == [] && Alphabets([t]) == [t] && Words([t]) == []
  {
    assert IsLetterToken(t) && !IsNumberToken(t);
    assert Upper(t)[0] == t[0];
    assert Upper(t) == t;
    assert Select([t], IsLetterToken) == [t];
  }

  lemma {:induction false} AllCapitalsUpper(s: string)
    requires AllCapitals(s)
    ensures Upper(s) == s && forall j :: 0 <= j < |s| ==> IsCapital(s[j])
    decreases |s|
  {
    if s != [] {
      AllCapitalsUpper(s[1..]);
      assert forall j :: 1 <= j < |s| ==> s[j] == s[1..][j - 1];
    }
  }

  /** A word of two or more capital letters is filed, unchanged, as a Word. */
  lemma CapitalWordClassified(w: string)
    requires |w| > 1 && AllCapitals(w)
    ensures Numbers([w]) == [] && Alphabets([w]) == [] && Words([w]) == [w]
  {
    AllCapitalsUpper(w);
    assert !IsDigit(w[0]);
    assert !IsNumberToken(w) && !IsLetterToken(w);
  }

  /** Classification of tokens that come in runs of digits, then capitals, then one word of
      capitals. */
  lemma ClassifyRunsStart(d: seq<string>, a1: seq<string>, w1: string)
    requires DigitTokens(d) && CapitalTokens(a1) && |w1| > 1 && AllCapitals(w1)
    ensures var tokens := d + a1 + [w1];
      Numbers(tokens) == d && Words(tokens) == [w1] && Alphabets(tokens) == a1
  {
    DigitTokensClassified(d);
    CapitalTokensClassified(a1);
    CapitalWordClassified(w1);
    ClassifyAppend(d, a1);
    ClassifyAppend(d + a1, [w1]);
  }

  /** Classification continued over a run of capitals followed by one word of capitals. */
  lemma ClassifyRunsStep(prefix: seq<string>, a: seq<string>, w: string)
    requires CapitalTokens(a) && |w| > 1 && AllCapitals(w)
    ensures var tokens := prefix + a + [w];
      Numbers(tokens) == Numbers(prefix) && Words(tokens) == Words(prefix) + [w] &&
      Alphabets(tokens) == Alphabets(prefix) + a
  {
    CapitalTokensClassified(a);
    CapitalWordClassified(w);
    ClassifyAppend(prefix, a);
    ClassifyAppend(prefix + a, [w]);
  }

  /** Classification continued over two runs of capitals. */
  lemma ClassifyRunsEnd(prefix: seq<string>, a: seq<string>, b: seq<string>)
    requires CapitalTokens(a) && CapitalTokens(b)
    ensures var tokens := prefix + a + b;
      Numbers(tokens) == Numbers(prefix) && Words(tokens) == Words(prefix) &&
      Alphabets(tokens) == Alphabets(prefix) + a + b
  {
    CapitalTokensClassified(a);
    CapitalTokensClassified(b);
    ClassifyAppend(prefix, a);
    ClassifyAppend(prefix + a, b);
  }

  /** The runs of `RAW_INPUT` have the shapes the classification steps ask for. */
  lemma RawDigitsShaped()
    ensures DigitTokens(RAW_DIGITS)
  {
    var d := ["1", "2", "3", "4", "5", "6", "8", "9"];
    assert DigitTokens(d);
  }

  lemma RawLettersShaped()
    ensures CapitalTokens(RAW_LETTERS_A_H) && CapitalTokens(RAW_LETTERS_I_N)
    ensures CapitalTokens(RAW_LETTERS_O_T) && CapitalTokens(RAW_LETTERS_U_Z)
  {
    RawLettersAHShaped();
    RawLettersINShaped();
    RawLettersOTShaped();
    RawLettersUZShaped();
  }

  lemma RawLettersAHShaped()
    ensures CapitalTokens(RAW_LETTERS_A_H)
  {
    var a1, a2 := ["A", "B", "C", "D"], ["E", "F", "G", "H"];
    assert CapitalTokens(a1) && CapitalTokens(a2);
    CapitalTokensAppend(a1, a2);
    assert a1 + a2 == RAW_LETTERS_A_H;
  }

  lemma RawLettersINShaped()
    ensures CapitalTokens(RAW_LETTERS_I_N)
  {
    var a1, a2 := ["I", "J", "K"], ["L", "M", "N"];
    assert CapitalTokens(a1) && CapitalTokens(a2);
    CapitalTokensAppend(a1, a2);
    assert a1 + a2 == RAW_LETTERS_I_N;
  }

  lemma RawLettersOTShaped()
    ensures CapitalTokens(RAW_LETTERS_O_T)
  {
    var a1, a2 := ["O", "P", "Q"], ["R", "S", "T"];
    assert CapitalTokens(a1) && CapitalTokens(a2);
    CapitalTokensAppend(a1, a2);
    assert a1 + a2 == RAW_LETTERS_O_T;
  }

  lemma RawLettersUZShaped()
    ensures CapitalTokens(RAW_LETTERS_U_Z)
  {
    var a1, a2 := ["U", "V"], ["X", "Y", "Z"];
    assert CapitalTokens(a1) && CapitalTokens(a2);
    CapitalTokensAppend(a1, a2);
    assert a1 + a2 == RAW_LETTERS_U_Z;
  }

  lemma {:induction false} CapitalTokensAppend(a: seq<string>, b: seq<string>)
    requires CapitalTokens(a) && CapitalTokens(b)
    ensures CapitalTokens(a + b)
    decreases |a|
  {
    if a != [] {
      CapitalTokensAppend(a[1..], b);
      assert (a + b)[1..] == a[1..] + b;
    } else {
      assert a + b == b;
    }
  }

  lemma RawWordsShaped()
    ensures RAW_HELLO == ["HELLO"] && AllCapitals("HELLO")
    ensures RAW_NAMASTE == ["NAMASTE"] && AllCapitals("NAMASTE")
  {
  }

  lemma RawWordsClassified()
    ensures Numbers(RAW_WORDS) == RAW_DIGITS
    ensures Words(RAW_WORDS) == RAW_HELLO + RAW_NAMASTE
    ensures Alphabets(RAW_WORDS) == RAW_LETTERS_A_H + RAW_LETTERS_I_N + RAW_LETTERS_O_T + RAW_LETTERS_U_Z
  {
    RawDigitsShaped();
    RawLettersShaped();
    RawWordsShaped();
    ClassifyRunsStart(RAW_DIGITS, RAW_LETTERS_A_H, "HELLO");
    var upToHello := RAW_DIGITS + RAW_LETTERS_A_H + RAW_HELLO;
    ClassifyRunsStep(upToHello, RAW_LETTERS_I_N, "NAMASTE");
    ClassifyRunsEnd(upToHello + RAW_LETTERS_I_N + RAW_NAMASTE, RAW_LETTERS_O_T, RAW_LETTERS_U_Z);
  }

  lemma RawRunsListed()
    ensures RAW_HELLO + RAW_NAMASTE == ["HELLO", "NAMASTE"]
    ensures RAW_LETTERS_A_H + RAW_LETTERS_I_N + RAW_LETTERS_O_T + RAW_LETTERS_U_Z ==
      ["A", "B", "C", "D", "E", "F", "G", "H", "I", "J", "K", "L", "M", "N", "O", "P", "Q", "R", "S", "T", "U", "V", "X", "Y", "Z"]
  {
  }

  /** On `RAW_INPUT` the Number list is 1 to 9 without 7, the Word list is HELLO and NAMASTE,
      and the Alphabet list is the letters A to Z without W. */
  lemma RawInputClassified()
    ensures Numbers(Tokenize(RAW_INPUT)) == ["1", "2", "3", "4", "5", "6", "8", "9"]
    ensures Words(Tokenize(RAW_INPUT)) == ["HELLO", "NAMASTE"]
    ensures Alphabets(Tokenize(RAW_INPUT)) == ["A", "B", "C", "D", "E", "F", "G", "H", "I", "J", "K", "L", "M", "N", "O", "P", "Q", "R", "S", "T", "U", "V", "X", "Y", "Z"]
  {
    RawInputTokens();
    RawWordsClassified();
    RawRunsListed();
  }
}
