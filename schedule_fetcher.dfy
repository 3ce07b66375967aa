/**
 * The schedule fetcher's two pieces of logic: pulling (filename, content) pairs out of
 * fenced code blocks in the model's reply, and the tool-use conversation loop.
 */
module ScheduleFetcher {
  import opened Wrappers
  import opened Strings

  // ---------------------------------------------------------------- fenced code blocks

  /** The three backticks of a code fence start at position p. */
  predicate FenceAt(text: string, p: int) {
    0 <= p && p + 3 <= |text| && text[p] == '`' && text[p + 1] == '`' && text[p + 2] == '`'
  }

  /** The piece p of text starts at position i. */
  predicate HasAt(text: string, p: string, i: int) {
    0 <= i && i + |p| <= |text| && text[i..i + |p|] == p
  }

  /** The block tag csv: or html: follows position i and the filename starts at nameStart. */
  predicate TagBetween(text: string, i: int, nameStart: int) {
    (HasAt(text, "csv:", i) && nameStart == i + 4) || (HasAt(text, "html:", i) && nameStart == i + 5)
  }

  /** Where one match of the block pattern lies in the text. */
  datatype Match = Match(start: nat, nameStart: nat, newline: nat, close: nat)

  /**
   * text holds a match of ```(?:csv|html):([^\n]+)\n(.*?)``` (with . matching newlines) at m:
   * a fence, a tag, a filename of at least one character and no newline running to a newline,
   * then the content up to the first fence after that newline.
   */
  ghost predicate IsMatch(text: string, m: Match) {
    FenceAt(text, m.start) && TagBetween(text, m.start + 3, m.nameStart)
    && m.nameStart < m.newline < |text| && text[m.newline] == '\n'
    && (forall k | m.nameStart <= k < m.newline :: text[k] != '\n')
    && m.newline + 1 <= m.close && FenceAt(text, m.close)
    && (forall q | m.newline + 1 <= q < m.close :: !FenceAt(text, q))
  }

  /** Where the next search resumes after a match: just past its closing fence. */
  function End(m: Match): nat {
    m.close + 3
  }

  ghost predicate MatchesAt(text: string, p: nat) {
    exists m: Match :: m.start == p && IsMatch(text, m)
  }

  /** No match starts anywhere in [lo, hi). */
  ghost predicate NoMatchIn(text: string, lo: nat, hi: nat) {
    forall p | lo <= p < hi :: !MatchesAt(text, p)
  }

  /**
   * ms are the matches a left-to-right search finds from position from, each one the leftmost
   * after the end of the one before, with no further match starting before hi.
   */
  ghost predicate Chain(text: string, from: nat, ms: seq<Match>, hi: nat)
    decreases |ms|
  {
    if ms == [] then from <= hi && NoMatchIn(text, from, hi)
    else
      from <= ms[0].start && NoMatchIn(text, from, ms[0].start) && IsMatch(text, ms[0])
      && Chain(text, End(ms[0]), ms[1..], hi)
  }

  /** re.findall's list of matches: the chain from the start of the text to its end. */
  ghost predicate IsFindAll(text: string, ms: seq<Match>) {
    Chain(text, 0, ms, |text| + 1)
  }

  /** What the extractor returns for one match: the stripped filename and the stripped content. */
  function FileOf(text: string, m: Match): (string, string)
    requires m.nameStart <= m.newline < m.close <= |text|
  {
    (Strip(text[m.nameStart..m.newline]), Strip(text[m.newline + 1..m.close]))
  }

  function FilesOf(text: string, ms: seq<Match>): (files: seq<(string, string)>)
    requires forall k | 0 <= k < |ms| :: ms[k].nameStart <= ms[k].newline < ms[k].close <= |text|
    ensures |files| == |ms|
    ensures forall k | 0 <= k < |ms| :: files[k] == FileOf(text, ms[k])
  {
    seq(|ms|, k requires 0 <= k < |ms| => FileOf(text, ms[k]))
  }

  lemma MatchBounds(text: string, m: Match)
    requires IsMatch(text, m)
    ensures m.start + 7 <= m.nameStart < m.newline < m.close && End(m) <= |text|
  {
  }

  /** A match is decided by where it starts. */
  lemma MatchUnique(text: string, m: Match, n: Match)
    requires IsMatch(text, m) && IsMatch(text, n) && m.start == n.start
    ensures m == n
  {
    TagDecides(text, m.start + 3, m.nameStart, n.nameStart);
  }

  /** re.findall's list of matches is unique. */
  lemma {:induction false} ChainUnique(text: string, from: nat, ms: seq<Match>, ns: seq<Match>, hi: nat)
    requires Chain(text, from, ms, hi) && Chain(text, from, ns, hi)
    requires forall q | q >= hi :: !MatchesAt(text, q)
    ensures ms == ns
    decreases |ms|
  {
    if ms != [] && ns != [] {
      if ms[0].start < ns[0].start {
        assert MatchesAt(text, ms[0].start);
      } else if ns[0].start < ms[0].start {
        assert MatchesAt(text, ns[0].start);
      }
      MatchUnique(text, ms[0], ns[0]);
      ChainUnique(text, End(ms[0]), ms[1..], ns[1..], hi);
      assert ms == [ms[0]] + ms[1..] && ns == [ns[0]] + ns[1..];
    } else if ms != [] {
      assert MatchesAt(text, ms[0].start);
    } else if ns != [] {
      assert MatchesAt(text, ns[0].start);
    }
  }

  lemma NoMatchPastEnd(text: string, q: nat)
    requires q + 3 > |text|
    ensures !MatchesAt(text, q)
  {
  }

  lemma FindAllUnique(text: string, ms: seq<Match>, ns: seq<Match>)
    requires IsFindAll(text, ms) && IsFindAll(text, ns)
    ensures ms == ns
  {
    forall q | q >= |text| + 1 ensures !MatchesAt(text, q) {
      NoMatchPastEnd(text, q);
    }
    ChainUnique(text, 0, ms, ns, |text| + 1);
  }

  /** A chain ending at hi extends to hi + 1 when no match starts at hi. */
  lemma {:induction false} ChainSkip(text: string, from: nat, ms: seq<Match>, hi: nat)
    requires Chain(text, from, ms, hi) && !MatchesAt(text, hi)
    ensures Chain(text, from, ms, hi + 1)
    decreases |ms|
  {
    if ms != [] {
      ChainSkip(text, End(ms[0]), ms[1..], hi);
    }
  }

  /** A chain ending at hi takes in a match starting at hi and then ends past it. */
  lemma {:induction false} ChainTake(text: string, from: nat, ms: seq<Match>, m: Match)
    requires Chain(text, from, ms, m.start) && IsMatch(text, m)
    ensures Chain(text, from, ms + [m], End(m))
    decreases |ms|
  {
    if ms == [] {
      assert [m][1..] == [];
      assert ms + [m] == [m];
    } else {
      ChainTake(text, End(ms[0]), ms[1..], m);
      assert (ms + [m])[1..] == ms[1..] + [m];
    }
  }

  /** The matches lie in text order and do not overlap: each starts after the one before ends. */
  lemma {:induction false} ChainOrdered(text: string, from: nat, ms: seq<Match>, hi: nat)
    requires Chain(text, from, ms, hi)
    ensures forall k | 0 <= k < |ms| :: from <= ms[k].start < End(ms[k])
    ensures forall k | 0 <= k < |ms| - 1 :: End(ms[k]) <= ms[k + 1].start
    decreases |ms|
  {
    if ms != [] {
      MatchBounds(text, ms[0]);
      ChainOrdered(text, End(ms[0]), ms[1..], hi);
      assert forall k | 1 <= k < |ms| :: ms[k] == ms[1..][k - 1];
    }
  }

  /** Text without a fence holds no block, so the extractor's list is empty. */
  lemma NoFenceNoMatches(text: string, ms: seq<Match>)
    requires forall q | 0 <= q < |text| :: !FenceAt(text, q)
    ensures IsFindAll(text, ms) <==> ms == []
  {
    assert IsFindAll(text, []);
    if IsFindAll(text, ms) {
      FindAllUnique(text, ms, []);
    }
  }

  /** The first position at or after from where c occurs, or |text| when it does not. */
  method FindChar(text: string, c: char, from: nat) returns (i: nat)
    requires from <= |text|
    ensures from <= i <= |text|
    ensures i < |text| ==> text[i] == c
    ensures forall k | from <= k < i :: text[k] != c
  {
    i := from;
    while i < |text| && text[i] != c
      invariant from <= i <= |text|
      invariant forall k | from <= k < i :: text[k] != c
    {
      i := i + 1;
    }
  }

  /** The first position at or after from where a fence starts, or |text| when there is none. */
  method FindFence(text: string, from: nat) returns (i: nat)
    requires from <= |text|
    ensures from <= i <= |text|
    ensures i < |text| ==> FenceAt(text, i)
    ensures forall q | from <= q < i :: !FenceAt(text, q)
  {
    i := from;
    while i < |text| && !FenceAt(text, i)
      invariant from <= i <= |text|
      invariant forall q | from <= q < i :: !FenceAt(text, q)
    {
      i := i + 1;
    }
  }

  /** The match of the block pattern starting at p, if there is one. */
  method MatchAt(text: string, p: nat) returns (r: Option<Match>)
    requires p <= |text|
    ensures r.Some? ==> r.value.start == p && IsMatch(text, r.value)
    ensures r.None? ==> !MatchesAt(text, p)
  {
    if !FenceAt(text, p) {
      return None;
    }
    var nameStart;
    if HasAt(text, "csv:", p + 3) {
      nameStart := p + 7;
    } else if HasAt(text, "html:", p + 3) {
      nameStart := p + 8;
    } else {
      NoTag(text, p);
      return None;
    }
    var newline := FindChar(text, '\n', nameStart);
    if newline == nameStart || newline == |text| {
      NoNameLine(text, p, nameStart, newline);
      return None;
    }
    var close := FindFence(text, newline + 1);
    if close == |text| {
      NoCloseFence(text, p, nameStart, newline);
      return None;
    }
    r := Some(Match(p, nameStart, newline, close));
  }

  lemma NoTag(text: string, p: nat)
    requires !HasAt(text, "csv:", p + 3) && !HasAt(text, "html:", p + 3)
    ensures !MatchesAt(text, p)
  {
  }

  lemma NoNameLine(text: string, p: nat, nameStart: nat, newline: nat)
    requires TagBetween(text, p + 3, nameStart) && nameStart <= newline <= |text|
    requires newline < |text| ==> text[newline] == '\n'
    requires forall k | nameStart <= k < newline :: text[k] != '\n'
    requires newline == nameStart || newline == |text|
    ensures !MatchesAt(text, p)
  {
    if MatchesAt(text, p) {
      var m: Match :| m.start == p && IsMatch(text, m);
      TagDecides(text, p + 3, nameStart, m.nameStart);
    }
  }

  lemma NoCloseFence(text: string, p: nat, nameStart: nat, newline: nat)
    requires TagBetween(text, p + 3, nameStart) && nameStart < newline < |text|
    requires text[newline] == '\n' && forall k | nameStart <= k < newline :: text[k] != '\n'
    requires forall q | newline + 1 <= q < |text| :: !FenceAt(text, q)
    ensures !MatchesAt(text, p)
  {
  }

  /** The tag at a position fixes where the filename starts. */
  lemma TagDecides(text: string, i: nat, a: nat, b: nat)
    requires TagBetween(text, i, a) && TagBetween(text, i, b)
    ensures a == b
  {
    if HasAt(text, "csv:", i) {
      HasAtFirst(text, "csv:", i);
    }
    if HasAt(text, "html:", i) {
      HasAtFirst(text, "html:", i);
    }
  }

  lemma HasAtFirst(text: string, piece: string, i: int)
    requires HasAt(text, piece, i) && piece != []
    ensures text[i] == piece[0]
  {
    assert text[i..i + |piece|][0] == text[i];
  }

  /** re.findall over the text, scanning left to right and resuming after each match. */
  method FindAll(text: string) returns (ms: seq<Match>)
    ensures IsFindAll(text, ms)
  {
    ms := [];
    var p := 0;
    while p < |text|
      invariant p <= |text|
      invariant Chain(text, 0, ms, p)
      decreases |text| - p
    {
      var r := MatchAt(text, p);
      match r
      case None =>
        ChainSkip(text, 0, ms, p);
        p := p + 1;
      case Some(m) =>
        MatchBounds(text, m);
        ChainTake(text, 0, ms, m);
        ms := ms + [m];
        p := End(m);
    }
    ChainSkip(text, 0, ms, p);
  }

  /** _extract_code_blocks: one stripped (filename, content) pair per match, in text order. */
  method ExtractCodeBlocks(text: string) returns (files: seq<(string, string)>)
    ensures exists ms :: IsFindAll(text, ms) && MatchesFit(text, ms) && files == FilesOf(text, ms)
  {
    var ms := FindAll(text);
    FindAllFits(text, ms);
    files := [];
    for i := 0 to |ms|
      invariant files == FilesOf(text, ms[..i])
    {
      files := files + [FileOf(text, ms[i])];
    }
    assert ms[..|ms|] == ms;
  }

  ghost predicate MatchesFit(text: string, ms: seq<Match>) {
    forall k | 0 <= k < |ms| :: ms[k].nameStart <= ms[k].newline < ms[k].close <= |text|
  }

  lemma {:induction false} ChainFits(text: string, from: nat, ms: seq<Match>, hi: nat)
    requires Chain(text, from, ms, hi)
    ensures MatchesFit(text, ms)
    decreases |ms|
  {
    if ms != [] {
      MatchBounds(text, ms[0]);
      ChainFits(text, End(ms[0]), ms[1..], hi);
      forall k | 0 <= k < |ms|
        ensures ms[k].nameStart <= ms[k].newline < ms[k].close <= |text|
      {
        if k > 0 { assert ms[k] == ms[1..][k - 1]; }
      }
    }
  }

  lemma FindAllFits(text: string, ms: seq<Match>)
    requires IsFindAll(text, ms)
    ensures MatchesFit(text, ms)
  {
    ChainFits(text, 0, ms, |text| + 1);
  }

  // ---------------------------------------------------------------- tool-use loop

  datatype Role = User | Assistant

  /** One content block of a reply (text, thinking, a server-side tool call or its result). */
  datatype Block = Block(kind: string, text: string)

  /** A message's content: the plain text a user sends, or the blocks of an earlier reply. */
  datatype Content = Text(text: string) | Blocks(blocks: seq<Block>)

  datatype Message = Message(role: Role, content: Content)

  datatype Response = Response(stopReason: string, content: seq<Block>)

  /**
   * The messages API, seen as an oracle: the response to the call with the given index
   * (counting from 0) when it is sent the given conversation.
   */
  type Api = (nat, seq<Message>) -> Response

  const MaxIterations: nat := 25

  /** The user message that follows every tool-use turn. */
  const Continuation := "Please provide the complete schedules based on your search results."

  /** The stop reasons that end the loop with a final answer. */
  predicate IsFinal(r: Response) {
    r.stopReason == "end_turn" || r.stopReason == "max_tokens"
  }

  /** The conversation after a tool-use turn: the reply's blocks, then the fixed user continuation. */
  function Continue(messages: seq<Message>, r: Response): (next: seq<Message>)
    ensures |next| == |messages| + 2 && next[..|messages|] == messages
    ensures next[|messages|] == Message(Assistant, Blocks(r.content))
    ensures next[|messages| + 1] == Message(User, Text(Continuation))
  {
    messages + [Message(Assistant, Blocks(r.content)), Message(User, Text(Continuation))]
  }

  /**
   * The conversations sent to the API from the call with index i on, given that messages is
   * what that call sends: the loop goes on only after a tool-use stop while calls remain.
   */
  function Calls(api: Api, messages: seq<Message>, i: nat): (cs: seq<seq<Message>>)
    requires i < MaxIterations
    ensures 1 <= |cs| <= MaxIterations - i && cs[0] == messages
    decreases MaxIterations - i
  {
    var r := api(i, messages);
    if r.stopReason == "tool_use" && i + 1 < MaxIterations then
      [messages] + Calls(api, Continue(messages, r), i + 1)
    else
      [messages]
  }

  function FirstMessages(prompt: string): seq<Message> {
    [Message(User, Text(prompt))]
  }

  /** Every conversation _call_claude_api sends, in order: one per API call. */
  function Transcript(prompt: string, api: Api): (cs: seq<seq<Message>>)
    ensures 1 <= |cs| <= MaxIterations && cs[0] == FirstMessages(prompt)
  {
    Calls(api, FirstMessages(prompt), 0)
  }

  /** What _call_claude_api returns: the response to its last call. */
  function FinalResponse(prompt: string, api: Api): Response {
    var cs := Transcript(prompt, api);
    api(|cs| - 1, cs[|cs| - 1])
  }

  /**
   * _call_claude_api: call the API until a final or unexpected stop, or until the ceiling.
   * conversations records what each call was sent.
   */
  method CallClaudeApi(prompt: string, api: Api) returns (response: Response, ghost conversations: seq<seq<Message>>)
    ensures conversations == Transcript(prompt, api)
    ensures 1 <= |conversations| <= MaxIterations && conversations[0] == FirstMessages(prompt)
    ensures response == api(|conversations| - 1, conversations[|conversations| - 1])
    ensures response == FinalResponse(prompt, api)
  {
    var messages := FirstMessages(prompt);
    // Overwritten by the first of the (at least one) calls below.
    response := Response("", []);
    conversations := [];
    for iteration := 0 to MaxIterations
      invariant |conversations| == iteration
      invariant iteration < MaxIterations ==> Transcript(prompt, api) == conversations + Calls(api, messages, iteration)
      invariant iteration == MaxIterations ==> Transcript(prompt, api) == conversations
      invariant iteration == MaxIterations ==> response == api(iteration - 1, conversations[iteration - 1])
    {
      response := api(iteration, messages);
      if IsFinal(response) {
        EndsHere(prompt, api, conversations, messages, iteration);
        conversations := conversations + [messages];
        return;
      }
      if response.stopReason == "tool_use" {
        ghost var before := messages;
        messages := messages + [Message(Assistant, Blocks(response.content))];
        messages := messages + [Message(User, Text(Continuation))];
        ContinuesHere(api, conversations, before, iteration, messages);
        conversations := conversations + [before];
        continue;
      }
      EndsHere(prompt, api, conversations, messages, iteration);
      conversations := conversations + [messages];
      return;
    }
    EndsAtCeiling(prompt, api, conversations);
  }

  /** A call that does not stop for tool use is the last one, and its response is returned. */
  lemma EndsHere(prompt: string, api: Api, sent: seq<seq<Message>>, messages: seq<Message>, i: nat)
    requires i < MaxIterations && |sent| == i && api(i, messages).stopReason != "tool_use"
    requires Transcript(prompt, api) == sent + Calls(api, messages, i)
    ensures Transcript(prompt, api) == sent + [messages]
    ensures FinalResponse(prompt, api) == api(i, messages)
  {
  }

  /** After the last allowed call the response of that call is returned. */
  lemma EndsAtCeiling(prompt: string, api: Api, sent: seq<seq<Message>>)
    requires |sent| == MaxIterations && Transcript(prompt, api) == sent
    ensures FinalResponse(prompt, api) == api(MaxIterations - 1, sent[MaxIterations - 1])
  {
  }

  /** A tool-use stop before the ceiling moves the loop on to the continued conversation. */
  lemma ContinuesHere(api: Api, sent: seq<seq<Message>>, messages: seq<Message>, i: nat, next: seq<Message>)
    requires i < MaxIterations && api(i, messages).stopReason == "tool_use"
    requires next == messages + [Message(Assistant, Blocks(api(i, messages).content))]
      + [Message(User, Text(Continuation))]
    ensures i + 1 < MaxIterations ==>
      sent + Calls(api, messages, i) == (sent + [messages]) + Calls(api, next, i + 1)
    ensures i + 1 == MaxIterations ==> sent + Calls(api, messages, i) == sent + [messages]
  {
    assert next == Continue(messages, api(i, messages));
  }

  /**
   * An independent description of a run of the loop from call index i: every call but the last
   * stopped for tool use and the next conversation continues it by exactly two messages; the
   * last call stopped for another reason or used up the ceiling.
   */
  ghost predicate IsRunFrom(api: Api, i: nat, cs: seq<seq<Message>>) {
    1 <= |cs| && i + |cs| <= MaxIterations
    && (forall k | 0 <= k < |cs| - 1 ::
          api(i + k, cs[k]).stopReason == "tool_use" && cs[k + 1] == Continue(cs[k], api(i + k, cs[k])))
    && (api(i + |cs| - 1, cs[|cs| - 1]).stopReason != "tool_use" || i + |cs| == MaxIterations)
  }

  /** A run of the whole loop: it starts from the single user message holding the prompt. */
  ghost predicate IsRun(api: Api, prompt: string, cs: seq<seq<Message>>) {
    IsRunFrom(api, 0, cs) && cs[0] == FirstMessages(prompt)
  }

  lemma {:induction false} CallsIsRun(api: Api, messages: seq<Message>, i: nat)
    requires i < MaxIterations
    ensures IsRunFrom(api, i, Calls(api, messages, i))
    decreases MaxIterations - i
  {
    var r := api(i, messages);
    if r.stopReason == "tool_use" && i + 1 < MaxIterations {
      var rest := Calls(api, Continue(messages, r), i + 1);
      CallsIsRun(api, Continue(messages, r), i + 1);
      var cs := [messages] + rest;
      forall k | 0 <= k < |cs| - 1
        ensures api(i + k, cs[k]).stopReason == "tool_use" && cs[k + 1] == Continue(cs[k], api(i + k, cs[k]))
      {
        if k > 0 {
          assert cs[k] == rest[k - 1] && cs[k + 1] == rest[k] && i + k == (i + 1) + (k - 1);
        }
      }
      assert cs[|cs| - 1] == rest[|rest| - 1];
    }
  }

  lemma {:induction false} RunIsCalls(api: Api, i: nat, cs: seq<seq<Message>>)
    requires IsRunFrom(api, i, cs)
    ensures cs == Calls(api, cs[0], i)
    decreases |cs|
  {
    var r := api(i, cs[0]);
    if |cs| > 1 {
      var rest := cs[1..];
      assert IsRunFrom(api, i + 1, rest) by {
        forall k | 0 <= k < |rest| - 1
          ensures api(i + 1 + k, rest[k]).stopReason == "tool_use"
            && rest[k + 1] == Continue(rest[k], api(i + 1 + k, rest[k]))
        {
          assert rest[k] == cs[k + 1] && rest[k + 1] == cs[k + 2];
        }
        assert rest[|rest| - 1] == cs[|cs| - 1];
      }
      RunIsCalls(api, i + 1, rest);
      assert cs == [cs[0]] + rest;
    }
  }

  /** The transcript is exactly the run the loop description allows, and no other. */
  lemma TranscriptIsRun(api: Api, prompt: string, cs: seq<seq<Message>>)
    ensures IsRun(api, prompt, cs) <==> cs == Transcript(prompt, api)
  {
    if IsRun(api, prompt, cs) {
      RunIsCalls(api, 0, cs);
    }
    CallsIsRun(api, FirstMessages(prompt), 0);
  }

  /**
   * The shape of every run: the conversation starts as the one user message holding the prompt
   * and grows by exactly two messages per call, every call but the last stopped for tool use, and
   * the returned response stopped for another reason unless the ceiling was reached.
   */
  lemma TranscriptShape(prompt: string, api: Api)
    ensures var cs := Transcript(prompt, api);
      (forall k | 0 <= k < |cs| :: |cs[k]| == 2 * k + 1 && cs[k][0] == Message(User, Text(prompt)))
      && (forall k | 0 <= k < |cs| - 1 :: api(k, cs[k]).stopReason == "tool_use")
      && (FinalResponse(prompt, api).stopReason != "tool_use" || |cs| == MaxIterations)
  {
    var cs := Transcript(prompt, api);
    CallsIsRun(api, FirstMessages(prompt), 0);
    GrowsByTwo(api, prompt, cs, |cs| - 1);
  }

  lemma {:induction false} GrowsByTwo(api: Api, prompt: string, cs: seq<seq<Message>>, n: nat)
    requires IsRun(api, prompt, cs) && n < |cs|
    ensures forall k | 0 <= k <= n :: |cs[k]| == 2 * k + 1 && cs[k][0] == Message(User, Text(prompt))
  {
    if n > 0 {
      GrowsByTwo(api, prompt, cs, n - 1);
      assert cs[n] == Continue(cs[n - 1], api(n - 1, cs[n - 1]));
    }
  }

  /** A first reply that is not a tool-use stop is returned at once, after a single call. */
  lemma StopsAtOnce(prompt: string, api: Api)
    requires api(0, FirstMessages(prompt)).stopReason != "tool_use"
    ensures Transcript(prompt, api) == [FirstMessages(prompt)]
    ensures FinalResponse(prompt, api) == api(0, FirstMessages(prompt))
  {
  }
}
