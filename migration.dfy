/** The pure string handling of the migration pipeline: splitting a generated
    `(main|||variables)` answer into the two Terraform documents, and turning
    an application name into a directory name. */
module Migration {
  import opened Wrappers
  import opened GoStrings

  /** The separator the generation prompt asks for between main.tf and variables.tf. */
  const Delimiter := "|||"

  /** The Terraform generated for one application, with the prompt that produced it. */
  datatype GeneratedTerraform = GeneratedTerraform(
    appName: string,
    mainTf: string,
    variablesTf: string,
    prompt: string)
  {
    /** The name with spaces and dashes turned into underscores and ASCII
        letters lower-cased; the length is kept. */
    function SanitizeAppName(): (r: string)
      ensures |r| == |appName|
      ensures forall i :: 0 <= i < |r| ==> r[i] != ' ' && r[i] != '-' && !('A' <= r[i] <= 'Z')
      ensures forall i :: 0 <= i < |r| ==>
        (r[i] == '_' <==> appName[i] == ' ' || appName[i] == '-' || appName[i] == '_')
      ensures forall i :: 0 <= i < |r| && appName[i] != ' ' && appName[i] != '-' ==>
        r[i] == LowerAscii(appName[i])
    {
      ToLower(ReplaceAllChar(ReplaceAllChar(appName, ' ', '_'), '-', '_'))
    }
  }

  /** Sanitising an already sanitised name changes nothing. */
  lemma SanitizeAppNameIdempotent(g: GeneratedTerraform)
    ensures g.(appName := g.SanitizeAppName()).SanitizeAppName() == g.SanitizeAppName()
  {
    var once := g.SanitizeAppName();
    var twice := g.(appName := once).SanitizeAppName();
    assert |twice| == |once|;
    forall i | 0 <= i < |once| ensures twice[i] == once[i] {
      if once[i] != '_' {
        assert twice[i] == LowerAscii(once[i]);
      }
    }
  }

  datatype ParseError = UnmatchedParentheses | MissingDelimiter

  /** The two documents of a parsed answer. */
  datatype TerraformPair = TerraformPair(mainTf: string, variablesTf: string)

  /** `parseTerraformResponse`: take the text between the first `(` and the last
      `)` of the trimmed answer, split it at the first `|||`, and trim white
      space and then double quotes from both halves. */
  function ParseTerraformResponse(response: string): Result<TerraformPair, ParseError>
  {
    match Bracketed(TrimSpace(response))
    case None => Failure(UnmatchedParentheses)
    case Some(inner) =>
      var parts := SplitN2(inner, Delimiter);
      if |parts| != 2 then Failure(MissingDelimiter)
      else Success(TerraformPair(Unquote(parts[0]), Unquote(parts[1])))
  }

  /** The text between the first `(` and the last `)` of the trimmed answer `t`,
      or `None` when there is no `(` before a `)`. */
  function Bracketed(t: string): Option<string>
  {
    var start := IndexChar(t, '(');
    var end := LastIndexChar(t, ')');
    if start == -1 || end == -1 || start >= end then None
    else Some(t[start + 1..end])
  }

  /** One half of the answer with white space, then double quotes, trimmed. */
  function Unquote(s: string): string
  {
    Trim(TrimSpace(s), IsQuote)
  }

  /** Some `(` stands strictly before some `)`. */
  predicate HasParenPair(t: string)
  {
    exists i, j :: 0 <= i < j < |t| && t[i] == '(' && t[j] == ')'
  }

  /** The text between the first `(` and the last `)`. */
  function Inner(t: string): string
    requires HasParenPair(t)
  {
    var i, j :| 0 <= i < j < |t| && t[i] == '(' && t[j] == ')';
    FirstOpenBeforeLastClose(t, i, j);
    t[IndexChar(t, '(') + 1..LastIndexChar(t, ')')]
  }

  lemma FirstOpenBeforeLastClose(t: string, i: int, j: int)
    requires 0 <= i < j < |t| && t[i] == '(' && t[j] == ')'
    ensures 0 <= IndexChar(t, '(') <= i < j <= LastIndexChar(t, ')')
  {
  }

  /** The answer is rejected for its parentheses exactly when, after trimming,
      no `(` stands before a `)`. */
  lemma ParenFailureIff(response: string)
    ensures ParseTerraformResponse(response) == Failure(UnmatchedParentheses) <==>
      !HasParenPair(TrimSpace(response))
  {
    BracketedIff(TrimSpace(response));
  }

  /** There is an inside exactly when some `(` precedes some `)`, and then it is
      the text between the first `(` and the last `)`. */
  lemma BracketedIff(t: string)
    ensures Bracketed(t).None? <==> !HasParenPair(t)
    ensures Bracketed(t).Some? ==> HasParenPair(t) && Bracketed(t).value == Inner(t)
  {
    if HasParenPair(t) {
      var i, j :| 0 <= i < j < |t| && t[i] == '(' && t[j] == ')';
      FirstOpenBeforeLastClose(t, i, j);
    }
  }

  /** The answer is rejected for its delimiter exactly when its parentheses
      are fine and the text between the first `(` and the last `)` holds no `|||`. */
  lemma DelimiterFailureIff(response: string)
    ensures var t := TrimSpace(response);
      ParseTerraformResponse(response) == Failure(MissingDelimiter) <==>
        HasParenPair(t) && !Contains(Inner(t), Delimiter)
  {
    BracketedIff(TrimSpace(response));
  }

  /** On success the main document holds no `|||`. */
  lemma ParseMainWithoutDelimiter(response: string)
    requires ParseTerraformResponse(response).Success?
    ensures !Contains(ParseTerraformResponse(response).value.mainTf, Delimiter)
  {
    var inner := Bracketed(TrimSpace(response)).value;
    ParseOfBracketed(response, inner);
    var parts := SplitN2(inner, Delimiter);
    UnquoteKeepsAbsence(parts[0], Delimiter);
  }

  /** On success neither document starts or ends with a double quote. */
  lemma ParseResultUnquoted(response: string)
    requires ParseTerraformResponse(response).Success?
    ensures var p := ParseTerraformResponse(response).value;
      QuoteFree(p.mainTf) && QuoteFree(p.variablesTf)
  {
    var inner := Bracketed(TrimSpace(response)).value;
    ParseOfBracketed(response, inner);
    var parts := SplitN2(inner, Delimiter);
    UnquoteEnds(parts[0]);
    UnquoteEnds(parts[1]);
  }

  /** Neither end of `u` is a double quote. */
  predicate QuoteFree(u: string)
  {
    u == [] || (u[0] != '"' && u[|u| - 1] != '"')
  }

  /** An unquoted half neither starts nor ends with a double quote. */
  lemma UnquoteEnds(x: string)
    ensures QuoteFree(Unquote(x))
  {
    TrimIsClean(TrimSpace(x), IsQuote);
  }

  /** Unquoting does not create a separator. */
  lemma UnquoteKeepsAbsence(x: string, sep: string)
    requires !Contains(x, sep)
    ensures !Contains(Unquote(x), sep)
  {
    TrimKeepsAbsence(x, IsSpace, sep);
    TrimKeepsAbsence(TrimSpace(x), IsQuote, sep);
  }

  /** Neither end is white space nor a double quote. */
  predicate Clean(s: string)
  {
    s == [] || (!IsSpace(s[0]) && !IsQuote(s[0]) && !IsSpace(s[|s| - 1]) && !IsQuote(s[|s| - 1]))
  }

  /** In `m + "|||" + v` the first `|||` is the one after `m` when `m` holds
      none and does not end in `|`. */
  lemma FirstDelimiterAfter(m: string, v: string)
    requires !Contains(m, Delimiter)
    requires m == [] || m[|m| - 1] != '|'
    ensures Index(m + Delimiter + v, Delimiter) == |m|
  {
    var content := m + Delimiter + v;
    assert content[|m|..|m| + 3] == Delimiter;
    assert OccursAt(content, Delimiter, |m|);
    forall k | 0 <= k < |m| ensures !OccursAt(content, Delimiter, k) {
      if k + 3 <= |m| {
        assert m[k..k + 3] == content[k..k + 3];
        assert !OccursAt(m, Delimiter, k);
      } else {
        assert content[k..k + 3][|m| - 1 - k] == m[|m| - 1];
      }
    }
  }

  /** In `"(" + content + ")"` the first `(` and the last `)` are the outer ones,
      and trimming white space changes nothing. */
  lemma Parenthesised(content: string)
    ensures var t := "(" + content + ")";
      && TrimSpace(t) == t
      && IndexChar(t, '(') == 0
      && LastIndexChar(t, ')') == |t| - 1
      && t[1..|t| - 1] == content
  {
    var t := "(" + content + ")";
    TrimUnchanged(t, IsSpace);
  }

  /** Once the inside of the parentheses is known, parsing splits it and
      unquotes both halves. */
  lemma ParseOfBracketed(response: string, inner: string)
    requires Bracketed(TrimSpace(response)) == Some(inner)
    ensures var parts := SplitN2(inner, Delimiter);
      ParseTerraformResponse(response) ==
        if |parts| != 2 then Failure(MissingDelimiter)
        else Success(TerraformPair(Unquote(parts[0]), Unquote(parts[1])))
  {
  }

  /** The inside of a parenthesised answer is exactly what was wrapped. */
  lemma BracketedParenthesised(content: string)
    ensures Bracketed(TrimSpace("(" + content + ")")) == Some(content)
  {
    Parenthesised(content);
  }

  lemma SplitAtFirst(s: string, sep: string)
    requires |sep| > 0 && Index(s, sep) >= 0
    ensures var k := Index(s, sep); SplitN2(s, sep) == [s[..k], s[k + |sep|..]]
  {
  }

  /** Round trip: wrapping two clean documents as `(main|||variables)` parses back
      to them, provided main holds no `|||` and does not end in `|` (otherwise
      the first `|||` would start inside main). Further `|||` stay in variables. */
  lemma ParseRoundTrip(m: string, v: string)
    requires !Contains(m, Delimiter)
    requires m == [] || m[|m| - 1] != '|'
    requires Clean(m) && Clean(v)
    ensures ParseTerraformResponse("(" + (m + Delimiter + v) + ")") == Success(TerraformPair(m, v))
  {
    var content := m + Delimiter + v;
    SplitRoundTrip(m, v);
    UnquoteClean(m);
    UnquoteClean(v);
    BracketedParenthesised(content);
    ParseOfBracketed("(" + content + ")", content);
  }

  /** Splitting `m + "|||" + v` at the first `|||` gives back `m` and `v`. */
  lemma SplitRoundTrip(m: string, v: string)
    requires !Contains(m, Delimiter)
    requires m == [] || m[|m| - 1] != '|'
    ensures SplitN2(m + Delimiter + v, Delimiter) == [m, v]
  {
    var content := m + Delimiter + v;
    FirstDelimiterAfter(m, v);
    SplitAtFirst(content, Delimiter);
    assert content[..|m|] == m;
    assert content[|m| + 3..] == v;
  }

  /** Unquoting leaves a clean document as it is. */
  lemma UnquoteClean(x: string)
    requires Clean(x)
    ensures Unquote(x) == x
  {
    TrimUnchanged(x, IsSpace);
    TrimUnchanged(x, IsQuote);
  }
}
