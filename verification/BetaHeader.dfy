/** The `anthropic-beta` header sent upstream: the mandatory tokens, then the client's own. */
module BetaHeader {
  import opened Domain
  import opened Text

  const OAUTH_TOKEN := "oauth-2025-04-20"
  const CLAUDE_CODE_TOKEN := "claude-code-20250219"
  const ANTHROPIC_BETA := OAUTH_TOKEN + [','] + CLAUDE_CODE_TOKEN
  const MANDATORY := [OAUTH_TOKEN, CLAUDE_CODE_TOKEN]

  /** The trimmed, non-empty list elements of a header value. */
  function TokensOf(raw: seq<string>): (tokens: seq<string>) {
    if raw == [] then [] else
      var token := Trim(raw[|raw| - 1]);
      TokensOf(raw[..|raw| - 1]) + if token == [] then [] else [token]
  }

  function ListElements(header: string): seq<string> {
    TokensOf(Split(header, ','))
  }

  /** The first occurrence of every token. */
  function Firsts(tokens: seq<string>): (r: seq<string>)
    ensures forall t :: t in r <==> t in tokens
  {
    if tokens == [] then [] else
      var front, last := Firsts(tokens[..|tokens| - 1]), tokens[|tokens| - 1];
      assert tokens == tokens[..|tokens| - 1] + [last];
      if last in front then front else front + [last]
  }

  function Requested(clientBeta: Option<string>): seq<string> {
    ListElements(ANTHROPIC_BETA) + if clientBeta.Some? then ListElements(clientBeta.value) else []
  }

  /** The header of a request, as a value. */
  function Merged(clientBeta: Option<string>): string {
    Join(Firsts(Requested(clientBeta)), ',')
  }

  // ---------------------------------------------------------------- the loops

  lemma OneMoreToken(raw: seq<string>, i: nat)
    requires i < |raw|
    ensures TokensOf(raw[..i + 1]) == TokensOf(raw[..i]) + if Trim(raw[i]) == [] then [] else [Trim(raw[i])]
  {
    assert raw[..i + 1][..i] == raw[..i];
  }

  lemma OneMoreFirst(tokens: seq<string>, token: string)
    ensures Firsts(tokens + [token]) == if token in Firsts(tokens) then Firsts(tokens) else Firsts(tokens) + [token]
  {
    assert (tokens + [token])[..|tokens|] == tokens;
  }

  lemma OneMoreAdded(raw: seq<string>, i: nat, before: seq<string>)
    requires i < |raw|
    ensures var sofar, token := Firsts(before + TokensOf(raw[..i])), Trim(raw[i]);
            Firsts(before + TokensOf(raw[..i + 1])) == if token == [] || token in sofar then sofar else sofar + [token]
  {
    hide *;
    var token := Trim(raw[i]);
    OneMoreToken(raw, i);
    OneMoreFirst(before + TokensOf(raw[..i]), token);
    assert before + (TokensOf(raw[..i]) + [token]) == before + TokensOf(raw[..i]) + [token];
    assert TokensOf(raw[..i]) + [] == TokensOf(raw[..i]);
  }

  /** The loop over one list; `merged` grows, `seen` mirrors it. */
  method AddAll(raw: seq<string>, ghost before: seq<string>, merged0: seq<string>, seen0: set<string>)
    returns (merged: seq<string>, seen: set<string>)
    requires merged0 == Firsts(before) && forall t :: t in seen0 <==> t in merged0
    ensures merged == Firsts(before + TokensOf(raw)) && forall t :: t in seen <==> t in merged
  {
    merged, seen := merged0, seen0;
    assert before + TokensOf(raw[..0]) == before;
    hide *;
    for i := 0 to |raw|
      invariant merged == Firsts(before + TokensOf(raw[..i])) && forall t :: t in seen <==> t in merged
    {
      var token := Trim(raw[i]);
      OneMoreAdded(raw, i, before);
      if |token| > 0 && token !in seen {
        seen := seen + {token};
        merged := merged + [token];
      }
    }
    assert raw[..|raw|] == raw;
  }

  method MergeBeta(clientBeta: Option<string>) returns (header: string)
    ensures header == Merged(clientBeta)
  {
    var merged, seen := AddAll(Split(ANTHROPIC_BETA, ','), [], [], {});
    assert [] + ListElements(ANTHROPIC_BETA) == ListElements(ANTHROPIC_BETA);
    if clientBeta.Some? {
      merged, seen := AddAll(Split(clientBeta.value, ','), ListElements(ANTHROPIC_BETA), merged, seen);
    } else {
      assert Requested(clientBeta) == ListElements(ANTHROPIC_BETA);
    }
    header := Join(merged, ',');
  }

  // ---------------------------------------------------------------- what the header is

  predicate Clean(token: string) { token != [] && Trimmed(token) && ',' !in token }

  predicate NoRepeats(tokens: seq<string>) {
    forall i, j :: 0 <= i < j < |tokens| ==> tokens[i] != tokens[j]
  }

  /** Some occurrence of `a` precedes every occurrence of `b`. */
  ghost predicate StartsBefore(tokens: seq<string>, a: string, b: string) {
    exists p :: 0 <= p < |tokens| && tokens[p] == a && b !in tokens[..p + 1]
  }

  lemma {:induction false} TokensClean(raw: seq<string>)
    requires forall p :: p in raw ==> ',' !in p
    ensures forall t :: t in TokensOf(raw) ==> Clean(t)
  {
    if raw != [] {
      TokensClean(raw[..|raw| - 1]);
      assert raw[|raw| - 1] in raw;
    }
  }

  lemma {:induction false} FirstsInOrder(tokens: seq<string>)
    ensures NoRepeats(Firsts(tokens))
    ensures forall i, j :: 0 <= i < j < |Firsts(tokens)| ==> StartsBefore(tokens, Firsts(tokens)[i], Firsts(tokens)[j])
  {
    if tokens != [] {
      var front, last := tokens[..|tokens| - 1], tokens[|tokens| - 1];
      FirstsInOrder(front);
      var r, r' := Firsts(front), Firsts(tokens);
      forall i, j | 0 <= i < j < |r'| ensures StartsBefore(tokens, r'[i], r'[j]) {
        if j < |r| {
          assert StartsBefore(front, r[i], r[j]);
          var p :| 0 <= p < |front| && front[p] == r[i] && r[j] !in front[..p + 1];
          assert tokens[..p + 1] == front[..p + 1] && tokens[p] == r'[i];
        } else {
          assert r[i] in front;
          var p :| 0 <= p < |front| && front[p] == r[i];
          assert forall t :: t in tokens[..p + 1] ==> t in front;
          assert tokens[p] == r'[i] && r'[j] !in tokens[..p + 1];
        }
      }
    }
  }

  lemma {:induction false} FirstsOfDistinct(tokens: seq<string>)
    requires NoRepeats(tokens)
    ensures Firsts(tokens) == tokens
  {
    if tokens != [] {
      FirstsOfDistinct(tokens[..|tokens| - 1]);
      assert tokens == tokens[..|tokens| - 1] + [tokens[|tokens| - 1]];
    }
  }

  lemma {:induction false} FirstsGrow(a: seq<string>, b: seq<string>)
    ensures Firsts(a) <= Firsts(a + b)
    ensures (forall t :: t in b ==> t in a) ==> Firsts(a + b) == Firsts(a)
  {
    if b == [] {
      assert a + b == a;
    } else {
      FirstsGrow(a, b[..|b| - 1]);
      assert (a + b)[..|a + b| - 1] == a + b[..|b| - 1];
    }
  }

  lemma LastToken(front: seq<string>, token: string)
    ensures TokensOf(front + [token]) == TokensOf(front) + if Trim(token) == [] then [] else [Trim(token)]
  {
    assert (front + [token])[..|front|] == front;
  }

  lemma {:induction false} CleanTokens(tokens: seq<string>)
    requires forall t :: t in tokens ==> Clean(t)
    ensures TokensOf(tokens) == tokens
  {
    if tokens != [] {
      var front, last := tokens[..|tokens| - 1], tokens[|tokens| - 1];
      assert Clean(last) && Trim(last) == last && last != [];
      hide Clean, TokensOf, Trim;
      CleanTokens(front);
      LastToken(front, last);
      assert tokens == front + [last];
    }
  }

  lemma MandatoryClean()
    ensures forall t :: t in MANDATORY ==> Clean(t)
  {
    assert Clean(OAUTH_TOKEN);
    assert Clean(CLAUDE_CODE_TOKEN);
  }

  lemma TwoTokens(a: string, b: string)
    requires Clean(a) && Clean(b)
    ensures ListElements(a + [','] + b) == [a, b]
  {
    SplitAt(a, b, ',');
    SplitOne(b, ',');
    assert [a] + [b] == [a, b];
    CleanTokens([a, b]);
  }

  lemma MandatoryTokens()
    ensures ListElements(ANTHROPIC_BETA) == MANDATORY && NoRepeats(MANDATORY)
    ensures forall t :: t in MANDATORY ==> Clean(t)
  {
    MandatoryClean();
    hide Clean, ListElements;
    TwoTokens(OAUTH_TOKEN, CLAUDE_CODE_TOKEN);
    assert OAUTH_TOKEN[0] != CLAUDE_CODE_TOKEN[0];
  }

  /** The elements of a header are the pieces between its commas, trimmed, but for the blank ones. */
  lemma ElementsArePieces(header: string, t: string)
    ensures t in ListElements(header) <==> t != "" && exists p :: p in Split(header, ',') && Trim(p) == t
  {
    TokensArePieces(Split(header, ','), t);
  }

  lemma {:induction false} TokensArePieces(raw: seq<string>, t: string)
    ensures t in TokensOf(raw) <==> t != "" && exists p :: p in raw && Trim(p) == t
  {
    if raw != [] {
      var front, last := raw[..|raw| - 1], raw[|raw| - 1];
      TokensArePieces(front, t);
      assert TokensOf(raw) == TokensOf(front) + if Trim(last) == [] then [] else [Trim(last)];
      hide *;
      assert raw == front + [last];
      assert forall p :: p in raw <==> p in front || p == last;
    }
  }

  lemma JoinTwo(a: string, b: string, sep: char)
    ensures Join([a, b], sep) == a + [sep] + b
  {
    assert [a, b][1..] == [b];
  }

  /** What goes upstream for a client that sends none. */
  lemma WithoutClientHeader()
    ensures Merged(None) == "oauth-2025-04-20" + "," + "claude-code-20250219"
  {
    MandatoryTokens();
    FirstsOfDistinct(MANDATORY);
    JoinTwo(OAUTH_TOKEN, CLAUDE_CODE_TOKEN, ',');
    hide Firsts, ListElements, NoRepeats, Clean, Join, TokensOf;
    assert Requested(None) == MANDATORY;
  }

  /** The merged header is an ordered union: split on commas it gives clean tokens without
      repeats, the mandatory ones first, the rest in the order in which the client first named
      them, and its tokens are exactly the mandatory ones and the client's. */
  lemma MergedIsOrderedUnion(clientBeta: Option<string>)
    ensures var tokens := Split(Merged(clientBeta), ',');
            && NoRepeats(tokens) && (forall t :: t in tokens ==> Clean(t))
            && MANDATORY <= tokens
            && (forall t :: t in tokens <==>
                  t in MANDATORY || (clientBeta.Some? && t in ListElements(clientBeta.value)))
            && (forall i, j :: |MANDATORY| <= i < j < |tokens| ==>
                  clientBeta.Some? && StartsBefore(ListElements(clientBeta.value), tokens[i], tokens[j]))
  {
    MandatoryTokens();
    var all := Requested(clientBeta);
    var own := if clientBeta.Some? then ListElements(clientBeta.value) else [];
    assert all == MANDATORY + own;
    if clientBeta.Some? {
      TokensClean(Split(clientBeta.value, ','));
    }
    FirstsInOrder(all);
    FirstsGrow(MANDATORY, own);
    FirstsOfDistinct(MANDATORY);
    var r := Firsts(all);
    assert forall t :: t in r ==> Clean(t);
    SplitJoin(r, ',');
    forall i, j | |MANDATORY| <= i < j < |r| ensures StartsBefore(own, r[i], r[j]) {
      LaterOnes(MANDATORY, own, r, i, j);
    }
  }

  lemma LaterOnes(first: seq<string>, own: seq<string>, r: seq<string>, i: nat, j: nat)
    requires first <= r && NoRepeats(r) && |first| <= i < j < |r|
    requires StartsBefore(first + own, r[i], r[j])
    ensures StartsBefore(own, r[i], r[j])
  {
    var all := first + own;
    var p :| 0 <= p < |all| && all[p] == r[i] && r[j] !in all[..p + 1];
    forall k | 0 <= k < |first| ensures all[k] != r[i] {
      assert all[k] == r[k];
    }
    var q := p - |first|;
    assert own[q] == r[i] && all[..p + 1] == first + own[..q + 1];
  }

  /** Merging a merged header again changes nothing. */
  lemma MergeIsIdempotent(clientBeta: Option<string>)
    ensures Merged(Some(Merged(clientBeta))) == Merged(clientBeta)
  {
    MergedIsOrderedUnion(clientBeta);
    MandatoryTokens();
    TokensAreClean(clientBeta);
    hide Clean, StartsBefore, Firsts, TokensOf, Split, IsSpace;
    var tokens := Split(Merged(clientBeta), ',');
    CleanTokens(tokens);
    AgainIsSame(MANDATORY, tokens);
    SplitJoin(Firsts(Requested(clientBeta)), ',');
  }

  lemma TokensAreClean(clientBeta: Option<string>)
    ensures Firsts(Requested(clientBeta)) != []
    ensures forall t :: t in Firsts(Requested(clientBeta)) ==> ',' !in t
  {
    MandatoryTokens();
    if clientBeta.Some? {
      TokensClean(Split(clientBeta.value, ','));
    }
    assert MANDATORY[0] in Requested(clientBeta);
  }

  lemma {:induction false} AgainIsSame(first: seq<string>, tokens: seq<string>)
    requires first <= tokens && NoRepeats(tokens)
    ensures Firsts(first + tokens) == tokens
  {
    if |first| == |tokens| {
      FirstsGrow(first, tokens);
      FirstsOfDistinct(first);
    } else {
      var front, last := tokens[..|tokens| - 1], tokens[|tokens| - 1];
      AgainIsSame(first, front);
      assert (first + tokens)[..|first + tokens| - 1] == first + front;
      assert tokens == front + [last];
    }
  }
}
