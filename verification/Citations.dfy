/** The citation round trip of ml-service/app/rag: prompt.py numbers the context chunks,
    FakeLLMClient cites every number it finds in the prompt, and citations.py maps the numbers of
    the streamed answer back to chunks. */
module Citations {
  import opened Collections
  import opened Markers
  import opened VectorStore

  // ---------------------------------------------------------------- sorted sets

  /** Strictly increasing. */
  predicate Increasing(s: seq<nat>) {
    forall i, j :: 0 <= i < j < |s| ==> s[i] < s[j]
  }

  function InsertSorted(s: seq<nat>, x: nat): seq<nat> {
    if s == [] || s[|s| - 1] < x then s + [x]
    else if s[|s| - 1] == x then s
    else InsertSorted(s[..|s| - 1], x) + [s[|s| - 1]]
  }

  /** `sorted({...})` of the listed numbers. */
  function SortedSet(xs: seq<nat>): seq<nat> {
    if xs == [] then [] else InsertSorted(SortedSet(xs[..|xs| - 1]), xs[|xs| - 1])
  }

  lemma InsertUnfold(s: seq<nat>, x: nat)
    ensures s == [] || s[|s| - 1] < x ==> InsertSorted(s, x) == s + [x]
    ensures s != [] && s[|s| - 1] == x ==> InsertSorted(s, x) == s
    ensures s != [] && s[|s| - 1] > x ==> InsertSorted(s, x) == InsertSorted(s[..|s| - 1], x) + [s[|s| - 1]]
  {
  }

  lemma IncreasingAppend(s: seq<nat>, last: nat)
    ensures Increasing(s + [last]) <==> Increasing(s) && forall x | x in s :: x < last
  {
    var all := s + [last];
    assert forall i | 0 <= i < |s| :: all[i] == s[i];
    if Increasing(all) {
      forall x | x in s ensures x < last {
        var i :| 0 <= i < |s| && s[i] == x;
        assert all[i] < all[|s|];
      }
      forall i, j | 0 <= i < j < |s| ensures s[i] < s[j] {
        assert all[i] < all[j];
      }
    }
    if Increasing(s) && forall x | x in s :: x < last {
      forall i, j | 0 <= i < j < |all| ensures all[i] < all[j] {
        assert all[i] == s[i] && s[i] in s;
      }
    }
  }

  lemma SplitLast(s: seq<nat>)
    requires s != []
    ensures s == s[..|s| - 1] + [s[|s| - 1]]
    ensures forall x :: x in s <==> x in s[..|s| - 1] || x == s[|s| - 1]
  {
    assert s == s[..|s| - 1] + [s[|s| - 1]];
  }

  lemma AppendMembers(s: seq<nat>, last: nat)
    ensures forall x :: x in s + [last] <==> x in s || x == last
  {
  }

  lemma {:induction false} InsertSortedSpec(s: seq<nat>, x: nat)
    requires Increasing(s)
    ensures Increasing(InsertSorted(s, x))
    ensures forall y :: y in InsertSorted(s, x) <==> y in s || y == x
  {
    hide *;
    InsertUnfold(s, x);
    AppendMembers(s, x);
    IncreasingAppend(s, x);
    if s != [] {
      var init, last := s[..|s| - 1], s[|s| - 1];
      SplitLast(s);
      IncreasingAppend(init, last);
      if last > x {
        InsertSortedSpec(init, x);
        IncreasingAppend(InsertSorted(init, x), last);
        AppendMembers(InsertSorted(init, x), last);
      }
    }
  }

  lemma {:induction false} SortedSetSpec(xs: seq<nat>)
    ensures Increasing(SortedSet(xs))
    ensures forall y :: y in SortedSet(xs) <==> y in xs
  {
    if xs != [] {
      var init, last := xs[..|xs| - 1], xs[|xs| - 1];
      assert xs == init + [last];
      SortedSetSpec(init);
      InsertSortedSpec(SortedSet(init), last);
    }
  }

  /** The sorted numbers a text cites. */
  function SortedCited(d: Digits, s: string): seq<nat>
    requires d.Valid()
  {
    SortedSet(Map(FindAll(d, s, 0), (g: string) => IntOf(d, g)))
  }

  lemma SortedCitedSpec(d: Digits, s: string)
    requires d.Valid()
    ensures Increasing(SortedCited(d, s))
    ensures forall n :: n in SortedCited(d, s) <==> n in Cited(d, s)
  {
    var groups := FindAll(d, s, 0);
    var numbers := Map(groups, (g: string) => IntOf(d, g));
    SortedSetSpec(numbers);
    forall n ensures n in numbers <==> n in Cited(d, s) {
      if n in numbers {
        var i :| 0 <= i < |numbers| && numbers[i] == n;
        assert groups[i] in groups;
      }
      if n in Cited(d, s) {
        var g :| g in groups && IntOf(d, g) == n;
        var i :| 0 <= i < |groups| && groups[i] == g;
        assert numbers[i] == n;
      }
    }
  }

  // ---------------------------------------------------------------- the prompt

  datatype TurnRole = UserTurn | AssistantTurn | UnknownTurn

  datatype Turn = Turn(role: TurnRole, content: string)

  datatype Role = SystemRole | UserRole | AssistantRole

  datatype Message = Message(role: Role, content: string)

  /** The numbered chunks, joined by blank lines. */
  function ContextBlock(texts: seq<string>): string {
    if texts == [] then ""
    else
      var n := |texts| - 1;
      (if n == 0 then "" else ContextBlock(texts[..n]) + "\n\n") + Marker(n + 1) + " " + texts[n]
  }

  function TextsOf(chunks: seq<ChunkRecord>): seq<string> {
    Map(chunks, (c: ChunkRecord) => c.text)
  }

  function UserContent(question: string, chunks: seq<ChunkRecord>): string {
    var block := ContextBlock(TextsOf(chunks));
    if block != "" then "Context:\n" + block + "\n\nQuestion: " + question else "Question: " + question
  }

  /** Turns of an unknown role are skipped. */
  function HistoryMessages(history: seq<Turn>): seq<Message> {
    if history == [] then []
    else
      var turn := history[|history| - 1];
      HistoryMessages(history[..|history| - 1])
      + match turn.role
        case UserTurn => [Message(UserRole, turn.content)]
        case AssistantTurn => [Message(AssistantRole, turn.content)]
        case UnknownTurn => []
  }

  /** Behind a turn the message keeps its words and its speaker. */
  predicate Speaks(turn: Turn, message: Message) {
    && message.content == turn.content
    && (message.role == UserRole <==> turn.role == UserTurn)
    && (message.role == AssistantRole <==> turn.role == AssistantTurn)
  }

  /** The messages are those of the turns at the positions `at`: all turns of a known role, in order. */
  ghost predicate TurnsAt(history: seq<Turn>, messages: seq<Message>, at: seq<nat>) {
    && |at| == |messages| && Increasing(at)
    && (forall k | 0 <= k < |at| :: at[k] < |history| && Speaks(history[at[k]], messages[k]))
    && (forall i | 0 <= i < |history| :: i in at <==> history[i].role != UnknownTurn)
  }

  ghost predicate KeepsKnownTurns(history: seq<Turn>, messages: seq<Message>) {
    exists at :: TurnsAt(history, messages, at)
  }

  lemma {:induction false} HistorySpec(history: seq<Turn>) returns (at: seq<nat>)
    ensures TurnsAt(history, HistoryMessages(history), at)
  {
    at := [];
    if history != [] {
      var n := |history| - 1;
      var before := HistorySpec(history[..n]);
      OneMoreTurn(history, before);
      at := if history[n].role == UnknownTurn then before else before + [n];
    }
  }

  lemma HistoryUnfold(history: seq<Turn>)
    requires history != []
    ensures var init, turn := HistoryMessages(history[..|history| - 1]), history[|history| - 1];
      if turn.role == UnknownTurn then HistoryMessages(history) == init
      else exists message :: Speaks(turn, message) && HistoryMessages(history) == init + [message]
  {
    var init, turn := HistoryMessages(history[..|history| - 1]), history[|history| - 1];
    assert init + [] == init;
    if turn.role != UnknownTurn {
      var message := Message(if turn.role == UserTurn then UserRole else AssistantRole, turn.content);
      assert Speaks(turn, message) && HistoryMessages(history) == init + [message];
    }
  }

  lemma SkipTurn(history: seq<Turn>, messages: seq<Message>, at: seq<nat>)
    requires history != [] && history[|history| - 1].role == UnknownTurn
    requires TurnsAt(history[..|history| - 1], messages, at)
    ensures TurnsAt(history, messages, at)
  {
    hide Speaks, Increasing;
    assert forall k | 0 <= k < |at| :: at[k] in at;
  }

  lemma TakeTurn(history: seq<Turn>, messages: seq<Message>, at: seq<nat>, message: Message)
    requires history != [] && history[|history| - 1].role != UnknownTurn
    requires TurnsAt(history[..|history| - 1], messages, at) && Speaks(history[|history| - 1], message)
    ensures TurnsAt(history, messages + [message], at + [|history| - 1])
  {
    hide Speaks;
    var n := |history| - 1;
    assert forall k | 0 <= k < |at| :: at[k] < n;
    forall i | 0 <= i < |history| ensures i in at + [n] <==> history[i].role != UnknownTurn {
      assert i < n ==> history[..n][i] == history[i];
    }
  }

  lemma OneMoreTurn(history: seq<Turn>, at: seq<nat>)
    requires history != [] && TurnsAt(history[..|history| - 1], HistoryMessages(history[..|history| - 1]), at)
    ensures var n := |history| - 1;
      TurnsAt(history, HistoryMessages(history), if history[n].role == UnknownTurn then at else at + [n])
  {
    hide *;
    var n := |history| - 1;
    HistoryUnfold(history);
    if history[n].role == UnknownTurn {
      SkipTurn(history, HistoryMessages(history), at);
    } else {
      var message :| Speaks(history[n], message)
        && HistoryMessages(history) == HistoryMessages(history[..n]) + [message];
      TakeTurn(history, HistoryMessages(history[..n]), at, message);
    }
  }

  /** The numbered chunks, as the prompt prints them. */
  function Numbered(chunks: seq<ChunkRecord>): seq<string> {
    seq(|chunks|, i requires 0 <= i < |chunks| => Marker(i + 1) + " " + chunks[i].text)
  }

  lemma {:induction false} BlockIsJoined(chunks: seq<ChunkRecord>)
    ensures ContextBlock(TextsOf(chunks)) == Join(Numbered(chunks), "\n\n")
    ensures chunks != [] ==> ContextBlock(TextsOf(chunks)) != ""
  {
    if chunks != [] {
      var n := |chunks| - 1;
      BlockIsJoined(chunks[..n]);
      assert TextsOf(chunks)[..n] == TextsOf(chunks[..n]) && Numbered(chunks)[..n] == Numbered(chunks[..n]);
      assert "" + Marker(1) == Marker(1);
      hide Marker;
    }
  }

  lemma QuestionContent(question: string, chunks: seq<ChunkRecord>)
    ensures chunks == [] ==> UserContent(question, chunks) == "Question: " + question
    ensures chunks != [] ==>
      UserContent(question, chunks) == "Context:\n" + Join(Numbered(chunks), "\n\n") + "\n\nQuestion: " + question
  {
    BlockIsJoined(chunks);
    assert ContextBlock([]) == "" && TextsOf([]) == [];
    hide ContextBlock, Join, Numbered, TextsOf;
  }

  /** The system prompt, the turns of a known role with their words and speakers, and the question behind its
      numbered context. */
  method BuildMessages(systemPrompt: string, question: string, history: seq<Turn>, chunks: seq<ChunkRecord>)
    returns (messages: seq<Message>)
    ensures messages == [Message(SystemRole, systemPrompt)] + HistoryMessages(history)
                        + [Message(UserRole, UserContent(question, chunks))]
    ensures |messages| >= 2 && messages[0] == Message(SystemRole, systemPrompt)
    ensures KeepsKnownTurns(history, messages[1..|messages| - 1])
    ensures messages[|messages| - 1] == Message(
      UserRole,
      if chunks == [] then "Question: " + question
      else "Context:\n" + Join(Numbered(chunks), "\n\n") + "\n\nQuestion: " + question)
  {
    ghost var at := HistorySpec(history);
    QuestionContent(question, chunks);
    hide TurnsAt, UserContent, Join, Numbered;
    messages := [Message(SystemRole, systemPrompt)];
    for i := 0 to |history|
      invariant messages == [Message(SystemRole, systemPrompt)] + HistoryMessages(history[..i])
    {
      assert history[..i + 1][..i] == history[..i];
      match history[i].role {
        case UserTurn => messages := messages + [Message(UserRole, history[i].content)];
        case AssistantTurn => messages := messages + [Message(AssistantRole, history[i].content)];
        case UnknownTurn =>
      }
    }
    assert history[..|history|] == history;
    messages := messages + [Message(UserRole, UserContent(question, chunks))];
    assert messages[1..|messages| - 1] == HistoryMessages(history);
    assert KeepsKnownTurns(history, HistoryMessages(history));
  }

  /** SUMMARY_TYPE_EXECUTIVE, which also answers for every type without an instruction of its own. */
  const EXECUTIVE: nat := 1

  function InstructionFor(instructions: map<nat, string>, summaryType: nat): string
    requires EXECUTIVE in instructions
  {
    if summaryType in instructions then instructions[summaryType] else instructions[EXECUTIVE]
  }

  /** `build_summarize_messages`; `instructions` is the table of instructions by summary type, `systemPrompt`
      the sentence an instruction is set into. */
  function BuildSummarizeMessages(
    systemPrompt: string -> string, instructions: map<nat, string>, summaryType: nat, chunks: seq<ChunkRecord>)
    : seq<Message>
    requires EXECUTIVE in instructions
  {
    [Message(SystemRole, systemPrompt(InstructionFor(instructions, summaryType))),
     Message(UserRole, SummaryContent(chunks))]
  }

  function SummaryContent(chunks: seq<ChunkRecord>): string {
    "Document excerpts:\n" + ContextBlock(TextsOf(chunks))
  }

  // ---------------------------------------------------------------- the fake client

  /** Content of the last user message, or nothing. */
  function LastUserContent(messages: seq<Message>): string {
    if messages == [] then ""
    else if messages[|messages| - 1].role == UserRole then messages[|messages| - 1].content
    else LastUserContent(messages[..|messages| - 1])
  }

  /** `" ".join(f"[{i}]" for i in numbers)`. */
  function MarkerList(numbers: seq<nat>): string {
    if numbers == [] then ""
    else Marker(numbers[0]) + if |numbers| == 1 then "" else " " + MarkerList(numbers[1..])
  }

  const NO_CONTEXT := "I don't have enough context"

  const NO_ANSWER := " to answer that question."

  const LEAD := "Based on the provided context "

  const TAIL := ", here is a synthesized answer."

  function Answer(d: Digits, userMessage: string): string
    requires d.Valid()
  {
    var numbers := SortedCited(d, userMessage);
    if numbers != [] then
      LEAD + (MarkerList(numbers) + TAIL)
    else NO_CONTEXT + NO_ANSWER
  }

  /** `s.split(" ")`; `start` opens the current word. */
  function WordsFrom(s: string, start: nat, i: nat): (words: seq<string>)
    requires start <= i <= |s|
    ensures words != []
    decreases |s| - i
  {
    if i == |s| then [s[start..]]
    else if s[i] == ' ' then [s[start..i]] + WordsFrom(s, i + 1, i + 1)
    else WordsFrom(s, start, i + 1)
  }

  /** The streamed pieces: every word but the last with its blank. */
  function Tokens(words: seq<string>): seq<string> {
    seq(|words|, i requires 0 <= i < |words| => if i == |words| - 1 then words[i] else words[i] + " ")
  }

  lemma TokensCons(word: string, words: seq<string>)
    requires words != []
    ensures Concat(Tokens([word] + words)) == word + " " + Concat(Tokens(words))
  {
    assert Tokens([word] + words) == [word + " "] + Tokens(words);
    ConcatCons(word + " ", Tokens(words));
  }

  lemma TokensOne(word: string)
    ensures Concat(Tokens([word])) == word
  {
    assert Tokens([word]) == [word] && [word][..0] == [];
    assert Concat([word]) == Concat([]) + word;
  }

  /** Splitting into words, appending the blanks again and joining is the identity. */
  lemma {:induction false} TokensRebuild(s: string, start: nat, i: nat)
    requires start <= i <= |s|
    ensures Concat(Tokens(WordsFrom(s, start, i))) == s[start..]
    decreases |s| - i
  {
    if i == |s| {
      TokensOne(s[start..]);
    } else if s[i] == ' ' {
      var word, rest := s[start..i], WordsFrom(s, i + 1, i + 1);
      assert WordsFrom(s, start, i) == [word] + rest;
      CutAtBlank(s, start, i);
      TokensRebuild(s, i + 1, i + 1);
      TokensCons(word, rest);
      hide *;
    } else {
      TokensRebuild(s, start, i + 1);
    }
  }

  lemma CutAtBlank(s: string, start: nat, i: nat)
    requires start <= i < |s| && s[i] == ' '
    ensures s[start..] == s[start..i] + " " + s[i + 1..]
  {
  }

  /** One word, with the one blank behind it or without. */
  predicate IsWord(token: string, blank: bool) {
    if blank then token != "" && token[|token| - 1] == ' ' && ' ' !in token[..|token| - 1] else ' ' !in token
  }

  lemma {:induction false} WordsAreWords(s: string, start: nat, i: nat)
    requires start <= i <= |s| && ' ' !in s[start..i]
    ensures forall word | word in WordsFrom(s, start, i) :: ' ' !in word
    decreases |s| - i
  {
    if i == |s| {
      assert s[start..i] == s[start..];
    } else if s[i] == ' ' {
      assert s[i + 1..i + 1] == "";
      WordsAreWords(s, i + 1, i + 1);
    } else {
      assert s[start..i + 1] == s[start..i] + [s[i]];
      WordsAreWords(s, start, i + 1);
    }
  }

  /** `FakeLLMClient.stream`: the yielded tokens and their number. */
  method Stream(d: Digits, messages: seq<Message>) returns (tokens: seq<string>, completionTokens: nat)
    requires d.Valid()
    ensures Concat(tokens) == Answer(d, LastUserContent(messages))
    ensures completionTokens == |tokens| > 0
    ensures forall i | 0 <= i < |tokens| - 1 :: IsWord(tokens[i], true)
    ensures IsWord(tokens[|tokens| - 1], false)
  {
    var answer := Answer(d, LastUserContent(messages));
    var words := WordsFrom(answer, 0, 0);
    tokens, completionTokens := [], 0;
    for i := 0 to |words|
      invariant tokens == Tokens(words)[..i] && completionTokens == i
    {
      var text := if i == |words| - 1 then words[i] else words[i] + " ";
      tokens := tokens + [text];
      completionTokens := completionTokens + 1;
    }
    TokensRebuild(answer, 0, 0);
    WordsAreWords(answer, 0, 0);
    assert forall i | 0 <= i < |words| - 1 :: (words[i] + " ")[..|words[i]|] == words[i] && words[i] in words;
    assert answer[0..] == answer && Tokens(words)[..|words|] == Tokens(words);
  }

  // ---------------------------------------------------------------- citations

  const QUOTE_MAX_CHARS := 240

  datatype Citation = Citation(chunkId: string, documentId: string, quote: string)

  function Cite(chunk: ChunkRecord): Citation {
    Citation(chunk.chunkId, chunk.documentId, Slice(chunk.text, QUOTE_MAX_CHARS))
  }

  function CiteEach(chunks: seq<ChunkRecord>): seq<Citation> {
    Map(chunks, (c: ChunkRecord) => Cite(c))
  }

  /** The citations of the listed numbers; numbers without a chunk are skipped. */
  function CiteAll(numbers: seq<nat>, chunks: seq<ChunkRecord>): seq<Citation> {
    if numbers == [] then []
    else
      var n := numbers[|numbers| - 1];
      CiteAll(numbers[..|numbers| - 1], chunks) + if 1 <= n <= |chunks| then [Cite(chunks[n - 1])] else []
  }

  /** A citation names its chunk and document and quotes the beginning of the text, all of a short one. */
  predicate IsCitationOf(citation: Citation, chunk: ChunkRecord) {
    && citation.chunkId == chunk.chunkId && citation.documentId == chunk.documentId
    && citation.quote <= chunk.text
    && |citation.quote| == if |chunk.text| <= QUOTE_MAX_CHARS then |chunk.text| else QUOTE_MAX_CHARS
  }

  /** The citations are those of the chunks with the listed numbers, which are the cited ones that have a chunk. */
  ghost predicate CitedAs(
    d: Digits, text: string, chunks: seq<ChunkRecord>, citations: seq<Citation>, numbers: seq<nat>)
    requires d.Valid()
  {
    && |numbers| == |citations| && Increasing(numbers)
    && (forall n :: n in numbers <==> 1 <= n <= |chunks| && n in Cited(d, text))
    && forall i | 0 <= i < |numbers| ::
         1 <= numbers[i] <= |chunks| && IsCitationOf(citations[i], chunks[numbers[i] - 1])
  }

  lemma CitationsSpec(d: Digits, text: string, chunks: seq<ChunkRecord>)
    requires d.Valid()
    ensures exists numbers :: CitedAs(d, text, chunks, CiteAll(SortedCited(d, text), chunks), numbers)
  {
    hide *;
    var numbers := SortedCited(d, text);
    var kept, citations := InRange(numbers, |chunks|), CiteAll(numbers, chunks);
    SortedCitedSpec(d, text);
    InRangeSpec(numbers, |chunks|);
    CiteAllInRange(numbers, chunks);
    CitedAsIntro(d, text, chunks, citations, kept);
  }

  lemma CitedAsIntro(d: Digits, text: string, chunks: seq<ChunkRecord>, citations: seq<Citation>, numbers: seq<nat>)
    requires d.Valid() && Increasing(numbers) && CitesInOrder(citations, numbers, chunks)
    requires forall n :: n in numbers <==> 1 <= n <= |chunks| && n in Cited(d, text)
    ensures CitedAs(d, text, chunks, citations, numbers)
  {
    hide Increasing, Cited, Cite;
    forall i | 0 <= i < |numbers| ensures IsCitationOf(citations[i], chunks[numbers[i] - 1]) {
      CiteIsCitation(chunks[numbers[i] - 1]);
    }
  }

  lemma CiteIsCitation(chunk: ChunkRecord)
    ensures IsCitationOf(Cite(chunk), chunk)
  {
  }

  method BuildCitations(d: Digits, text: string, chunks: seq<ChunkRecord>) returns (citations: seq<Citation>)
    requires d.Valid()
    ensures citations == CiteAll(SortedCited(d, text), chunks)
    ensures exists numbers :: CitedAs(d, text, chunks, citations, numbers)
  {
    CitationsSpec(d, text, chunks);
    hide CitedAs;
    var cited := SortedCited(d, text);
    citations := [];
    for i := 0 to |cited|
      invariant citations == CiteAll(cited[..i], chunks)
    {
      assert cited[..i + 1][..i] == cited[..i];
      var index := cited[i];
      if !(1 <= index <= |chunks|) {
        continue;
      }
      citations := citations + [Cite(chunks[index - 1])];
    }
    assert cited[..|cited|] == cited;
  }

  // ---------------------------------------------------------------- the round trip

  /** The prompt marks every chunk, whatever the chunk texts contain. */
  lemma {:induction false} BlockCites(d: Digits, before: string, texts: seq<string>, after: string, n: nat)
    requires d.Valid() && 1 <= n <= |texts|
    ensures n in Cited(d, before + ContextBlock(texts) + after)
  {
    var m := |texts| - 1;
    var init := if m == 0 then "" else ContextBlock(texts[..m]) + "\n\n";
    var tail := " " + texts[m];
    assert ContextBlock(texts) == init + Marker(m + 1) + tail;
    if n == m + 1 {
      Regroup(before, init, Marker(n), tail, after);
      MarkerIsCited(d, before + init, n, tail + after);
    } else {
      var block := ContextBlock(texts[..m]);
      var rest := "\n\n" + (Marker(m + 1) + tail + after);
      BlockCites(d, before, texts[..m], rest, n);
      hide *;
      RegroupBlock(before, block, "\n\n", Marker(m + 1), tail, after);
    }
  }

  lemma Regroup(a: string, b: string, c: string, d: string, e: string)
    ensures a + (b + c + d) + e == (a + b) + c + (d + e)
  {
  }

  lemma RegroupBlock(a: string, b: string, c: string, d: string, e: string, f: string)
    ensures a + (b + c + d + e) + f == a + b + (c + (d + e + f))
  {
  }

  lemma MarkerListUnfold(numbers: seq<nat>, tail: string)
    ensures numbers == [] ==> MarkerList(numbers) + tail == tail
    ensures |numbers| == 1 ==> MarkerList(numbers) + tail == Marker(numbers[0]) + tail
    ensures |numbers| > 1 ==>
      MarkerList(numbers) + tail == Marker(numbers[0]) + (" " + (MarkerList(numbers[1..]) + tail))
  {
    hide Marker;
    if numbers == [] {
      assert MarkerList(numbers) + tail == tail;
    } else if |numbers| == 1 {
      assert MarkerList(numbers) == Marker(numbers[0]) + "" == Marker(numbers[0]);
    } else {
      var rest := MarkerList(numbers[1..]);
      assert MarkerList(numbers) == Marker(numbers[0]) + (" " + rest);
      hide *;
      FourInARow(Marker(numbers[0]), " ", rest, tail);
    }
  }

  lemma FourInARow(a: string, b: string, c: string, d: string)
    ensures a + (b + c) + d == a + (b + (c + d))
  {
  }

  lemma FirstAndRest(numbers: seq<nat>)
    requires numbers != []
    ensures ToSet(numbers) == {numbers[0]} + ToSet(numbers[1..])
    ensures |numbers| == 1 ==> ToSet(numbers[1..]) == {}
  {
    assert numbers == [numbers[0]] + numbers[1..];
  }

  /** A printed list of markers cites exactly its numbers. */
  lemma {:induction false} MarkerListCites(d: Digits, numbers: seq<nat>, tail: string)
    requires d.Valid() && '[' !in tail
    ensures Cited(d, MarkerList(numbers) + tail) == ToSet(numbers)
  {
    assert ToSet<nat>([]) == {};
    hide *;
    MarkerListUnfold(numbers, tail);
    if numbers == [] {
      PlainText(d, tail);
    } else {
      FirstAndRest(numbers);
      if |numbers| == 1 {
        MarkerPrefix(d, numbers[0], tail);
        PlainText(d, tail);
      } else {
        var rest := MarkerList(numbers[1..]) + tail;
        MarkerPrefix(d, numbers[0], " " + rest);
        PlainPrefix(d, " ", rest);
        MarkerListCites(d, numbers[1..], tail);
      }
    }
  }

  lemma PlainPhrases()
    ensures '[' !in LEAD && '[' !in TAIL
  {
  }

  lemma PlainRefusal()
    ensures '[' !in NO_CONTEXT && '[' !in NO_ANSWER
  {
  }

  lemma AnswerUnfold(d: Digits, userMessage: string)
    requires d.Valid()
    ensures var numbers := SortedCited(d, userMessage);
      Answer(d, userMessage) == if numbers != [] then LEAD + (MarkerList(numbers) + TAIL) else NO_CONTEXT + NO_ANSWER
  {
    hide SortedCited, MarkerList, LEAD, TAIL, NO_CONTEXT, NO_ANSWER;
  }

  lemma {:induction false} MarkersAreJoined(numbers: seq<nat>)
    ensures MarkerList(numbers) == Join(Map(numbers, Marker), " ")
  {
    if |numbers| > 1 {
      var rest := numbers[1..];
      MarkersAreJoined(rest);
      assert Map(numbers, Marker) == [Marker(numbers[0])] + Map(rest, Marker);
      JoinConcat([Marker(numbers[0])], Map(rest, Marker), " ");
      hide Marker;
    }
  }

  /** The answer lists the markers of the numbers the prompt contains, increasing and with blanks between them. */
  lemma AnswerText(d: Digits, userMessage: string)
    requires d.Valid() && Cited(d, userMessage) != {}
    ensures exists numbers ::
      && Increasing(numbers) && (forall n :: n in numbers <==> n in Cited(d, userMessage))
      && Answer(d, userMessage) == LEAD + (Join(Map(numbers, Marker), " ") + TAIL)
  {
    hide *;
    var numbers := SortedCited(d, userMessage);
    SortedCitedSpec(d, userMessage);
    AnswerUnfold(d, userMessage);
    MarkersAreJoined(numbers);
    var n :| n in Cited(d, userMessage);
    assert n in numbers;
  }

  /** The answer cites exactly the numbers the prompt contains. */
  lemma AnswerCites(d: Digits, userMessage: string)
    requires d.Valid()
    ensures Cited(d, Answer(d, userMessage)) == Cited(d, userMessage)
  {
    var numbers := SortedCited(d, userMessage);
    assert ToSet<nat>([]) == {};
    hide *;
    SortedCitedSpec(d, userMessage);
    AnswerUnfold(d, userMessage);
    CitedIsSorted(d, userMessage);
    if numbers != [] {
      PlainPhrases();
      MarkerListCites(d, numbers, TAIL);
      PlainPrefix(d, LEAD, MarkerList(numbers) + TAIL);
    } else {
      PlainRefusal();
      NoBracket(NO_CONTEXT, NO_ANSWER);
      PlainText(d, NO_CONTEXT + NO_ANSWER);
    }
  }

  lemma CitedIsSorted(d: Digits, text: string)
    requires d.Valid()
    ensures Cited(d, text) == ToSet(SortedCited(d, text))
  {
    SortedCitedSpec(d, text);
    hide Cited, SortedCited;
  }

  lemma NoBracket(a: string, b: string)
    requires '[' !in a && '[' !in b
    ensures '[' !in a + b
  {
  }

  lemma FirstIsMember(s: seq<nat>)
    requires s != []
    ensures exists x :: x in s
  {
    assert s[0] in s;
  }

  lemma LargestIsLast(s: seq<nat>, n: nat)
    requires Increasing(s) && n in s && forall x | x in s :: x <= n
    ensures s == s[..|s| - 1] + [n] && n !in s[..|s| - 1]
  {
    var last := |s| - 1;
    assert s[last] in s;
    var j :| 0 <= j < |s| && s[j] == n;
    assert j == last;
    assert forall k | 0 <= k < last :: s[k] < s[last];
  }

  /** An increasing list with exactly the members 1..n is the list 1, ..., n. */
  lemma {:induction false} IncreasingRange(s: seq<nat>, n: nat)
    requires Increasing(s) && forall x :: x in s <==> 1 <= x <= n
    ensures |s| == n && forall i | 0 <= i < n :: s[i] == i + 1
  {
    if n == 0 {
      if s != [] { FirstIsMember(s); }
    } else {
      LargestIsLast(s, n);
      var init := s[..|s| - 1];
      forall x ensures x in init <==> 1 <= x <= n - 1 {
        assert x in s <==> x in init || x == n;
      }
      IncreasingRange(init, n - 1);
    }
  }

  /** The listed numbers that have a chunk. */
  function InRange(numbers: seq<nat>, count: nat): seq<nat> {
    if numbers == [] then []
    else
      var n := numbers[|numbers| - 1];
      InRange(numbers[..|numbers| - 1], count) + if 1 <= n <= count then [n] else []
  }

  lemma {:induction false} InRangeSpec(numbers: seq<nat>, count: nat)
    requires Increasing(numbers)
    ensures Increasing(InRange(numbers, count))
    ensures forall n :: n in InRange(numbers, count) <==> n in numbers && 1 <= n <= count
  {
    if numbers != [] {
      var init, last := numbers[..|numbers| - 1], numbers[|numbers| - 1];
      assert InRange(numbers, count)
        == if 1 <= last <= count then InRange(init, count) + [last] else InRange(init, count);
      hide *;
      SplitLast(numbers);
      IncreasingAppend(init, last);
      InRangeSpec(init, count);
      IncreasingAppend(InRange(init, count), last);
      AppendMembers(InRange(init, count), last);
    }
  }

  lemma OneMoreCitation(numbers: seq<nat>, chunks: seq<ChunkRecord>)
    requires numbers != []
    ensures var init, n := numbers[..|numbers| - 1], numbers[|numbers| - 1];
      if 1 <= n <= |chunks| then
        && InRange(numbers, |chunks|) == InRange(init, |chunks|) + [n]
        && CiteAll(numbers, chunks) == CiteAll(init, chunks) + [Cite(chunks[n - 1])]
      else
        && InRange(numbers, |chunks|) == InRange(init, |chunks|)
        && CiteAll(numbers, chunks) == CiteAll(init, chunks)
  {
    hide Cite;
  }

  /** The citations are those of the listed numbers, all of which have a chunk. */
  ghost predicate CitesInOrder(citations: seq<Citation>, kept: seq<nat>, chunks: seq<ChunkRecord>) {
    && |citations| == |kept|
    && forall i | 0 <= i < |kept| :: 1 <= kept[i] <= |chunks| && citations[i] == Cite(chunks[kept[i] - 1])
  }

  lemma CitesOneMore(citations: seq<Citation>, kept: seq<nat>, chunks: seq<ChunkRecord>, n: nat)
    requires CitesInOrder(citations, kept, chunks) && 1 <= n <= |chunks|
    ensures CitesInOrder(citations + [Cite(chunks[n - 1])], kept + [n], chunks)
  {
    hide Cite;
  }

  lemma NothingCited(chunks: seq<ChunkRecord>)
    ensures CitesInOrder(CiteAll([], chunks), InRange([], |chunks|), chunks)
  {
  }

  lemma {:induction false} CiteAllInRange(numbers: seq<nat>, chunks: seq<ChunkRecord>)
    ensures CitesInOrder(CiteAll(numbers, chunks), InRange(numbers, |chunks|), chunks)
  {
    hide *;
    if numbers == [] {
      NothingCited(chunks);
    } else {
      var init, n := numbers[..|numbers| - 1], numbers[|numbers| - 1];
      CiteAllInRange(init, chunks);
      OneMoreCitation(numbers, chunks);
      if 1 <= n <= |chunks| {
        CitesOneMore(CiteAll(init, chunks), InRange(init, |chunks|), chunks, n);
      }
    }
  }

  /** Whenever the text marks every chunk, its citations are the chunks', once each, in order. */
  lemma MarkedChunksAreCited(d: Digits, text: string, chunks: seq<ChunkRecord>)
    requires d.Valid() && forall n | 1 <= n <= |chunks| :: n in Cited(d, text)
    ensures CiteAll(SortedCited(d, text), chunks) == CiteEach(chunks)
  {
    hide *;
    var numbers := SortedCited(d, text);
    SortedCitedSpec(d, text);
    InRangeSpec(numbers, |chunks|);
    IncreasingRange(InRange(numbers, |chunks|), |chunks|);
    CiteAllInRange(numbers, chunks);
    SameCitations(CiteAll(numbers, chunks), InRange(numbers, |chunks|), chunks);
  }

  lemma SameCitations(citations: seq<Citation>, kept: seq<nat>, chunks: seq<ChunkRecord>)
    requires CitesInOrder(citations, kept, chunks) && |kept| == |chunks|
    requires forall i | 0 <= i < |kept| :: kept[i] == i + 1
    ensures citations == CiteEach(chunks)
  {
    hide Cite;
  }

  /** The round trip: whatever the chunks, the history and the question contain, stray brackets
      included, the streamed answer's citations are one per context chunk, in order. */
  method QueryCitations(
    d: Digits, systemPrompt: string, question: string, history: seq<Turn>, chunks: seq<ChunkRecord>)
    returns (citations: seq<Citation>)
    requires d.Valid()
    ensures citations == CiteEach(chunks)
    ensures |citations| == |chunks| && forall i | 0 <= i < |chunks| :: IsCitationOf(citations[i], chunks[i])
  {
    var messages := BuildMessages(systemPrompt, question, history, chunks);
    var tokens, _ := Stream(d, messages);
    citations := BuildCitations(d, Concat(tokens), chunks);
    LastOfPrompt(systemPrompt, history, UserContent(question, chunks));
    QueryRoundTrip(d, question, chunks);
    EachIsCited(chunks);
  }

  lemma EachIsCited(chunks: seq<ChunkRecord>)
    ensures |CiteEach(chunks)| == |chunks|
    ensures forall i | 0 <= i < |chunks| :: IsCitationOf(CiteEach(chunks)[i], chunks[i])
  {
  }

  lemma LastOfPrompt(systemPrompt: string, history: seq<Turn>, content: string)
    ensures LastUserContent(
      [Message(SystemRole, systemPrompt)] + HistoryMessages(history) + [Message(UserRole, content)]) == content
  {
  }

  lemma QueryRoundTrip(d: Digits, question: string, chunks: seq<ChunkRecord>)
    requires d.Valid()
    ensures CiteAll(SortedCited(d, Answer(d, UserContent(question, chunks))), chunks)
            == CiteEach(chunks)
  {
    var content, texts := UserContent(question, chunks), TextsOf(chunks);
    AnswerCites(d, content);
    forall n | 1 <= n <= |chunks| ensures n in Cited(d, content) {
      BlockCites(d, "Context:\n", texts, "\n\nQuestion: " + question, n);
      assert "Context:\n" + ContextBlock(texts) + ("\n\nQuestion: " + question) == content;
    }
    MarkedChunksAreCited(d, Answer(d, content), chunks);
  }

  /** A summary asks with the instruction of its type, or the executive one for a type without, about the numbered
      excerpts. */
  lemma SummaryPrompt(
    systemPrompt: string -> string, instructions: map<nat, string>, summaryType: nat, chunks: seq<ChunkRecord>)
    requires EXECUTIVE in instructions
    ensures var messages := BuildSummarizeMessages(systemPrompt, instructions, summaryType, chunks);
      && |messages| == 2
      && messages[0].role == SystemRole && messages[1].role == UserRole
      && (summaryType in instructions ==> messages[0].content == systemPrompt(instructions[summaryType]))
      && (summaryType !in instructions ==> messages[0].content == systemPrompt(instructions[EXECUTIVE]))
      && messages[1].content == "Document excerpts:\n" + Join(Numbered(chunks), "\n\n")
  {
    BlockIsJoined(chunks);
    hide Join, Numbered, ContextBlock;
  }

  /** The excerpts of a summary are marked with all their numbers, whatever the type; the system prompt's own
      example markers are not the user's. */
  lemma SummaryMarksChunks(
    d: Digits, systemPrompt: string -> string, instructions: map<nat, string>, summaryType: nat,
    chunks: seq<ChunkRecord>, n: nat)
    requires d.Valid() && EXECUTIVE in instructions && 1 <= n <= |chunks|
    ensures n in Cited(d, LastUserContent(BuildSummarizeMessages(systemPrompt, instructions, summaryType, chunks)))
  {
    hide Join, Numbered;
    var texts := TextsOf(chunks);
    BlockCites(d, "Document excerpts:\n", texts, "", n);
    assert "Document excerpts:\n" + ContextBlock(texts) + "" == SummaryContent(chunks);
    hide Cited, ContextBlock;
  }

  /** The whole summary path: nothing for a document without chunks, otherwise the streamed answer's
      citations are one per chunk, in order, whatever the type and the texts. */
  method SummaryCitations(
    d: Digits, systemPrompt: string -> string, instructions: map<nat, string>, summaryType: nat,
    chunks: seq<ChunkRecord>)
    returns (citations: Option<seq<Citation>>)
    requires d.Valid() && EXECUTIVE in instructions
    ensures citations == if chunks == [] then None else Some(CiteEach(chunks))
    ensures citations.Some? ==>
      |citations.value| == |chunks| && forall i | 0 <= i < |chunks| :: IsCitationOf(citations.value[i], chunks[i])
  {
    if chunks == [] {
      return None;
    }
    var messages := BuildSummarizeMessages(systemPrompt, instructions, summaryType, chunks);
    var tokens, _ := Stream(d, messages);
    var cited := BuildCitations(d, Concat(tokens), chunks);
    ghost var content := LastUserContent(messages);
    AnswerCites(d, content);
    forall n | 1 <= n <= |chunks| ensures n in Cited(d, content) {
      SummaryMarksChunks(d, systemPrompt, instructions, summaryType, chunks, n);
    }
    EachIsCited(chunks);
    hide *;
    MarkedChunksAreCited(d, Answer(d, content), chunks);
    citations := Some(cited);
  }
}
