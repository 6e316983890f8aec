/** The generative-AI adapter `generateResponse(query, board)`: the prompt it builds,
    the one remote `generateContent` call, and how `{text, visual}` is read from the reply. */
module GeminiService {
  import opened Wrappers
  import opened Sequences

  /** The parts of the SDK's reply that the adapter reads. */
  datatype FileData = FileData(uri: Option<string>)
  datatype Part = Part(fileData: Option<FileData>)
  datatype Candidate = Candidate(parts: seq<Part>)

  /** `result.response`: what `text()` returns (or the message it throws), and the candidates. */
  datatype ContentResponse = ContentResponse(text: Result<string, string>, candidates: seq<Candidate>)

  /** What the awaited `generateContent(prompt)` gives: a response, or a rejection with a message. */
  datatype RemoteReply = Responded(response: ContentResponse) | Rejected(message: string)

  /** The adapter's resolved value `{ text, visual }`. */
  datatype Generated = Generated(text: string, visual: string)

  const PromptHead := "You are an AI tutor for "
  const PromptMiddle := " students. Provide a detailed, step-by-step explanation for the following question: "
  const PromptTail := ". Include relevant diagrams or visuals if applicable."
  const PlaceholderVisual := "https://via.placeholder.com/400x300?text=Diagram"
  /** The TypeError thrown by `candidates[0].content` when there is no candidate. */
  const NoCandidateError := "Cannot read properties of undefined (reading 'content')"

  /** The tutoring prompt for a board and a question. */
  function BuildPrompt(board: string, query: string): (p: string)
    ensures |p| == |PromptHead| + |board| + |PromptMiddle| + |query| + |PromptTail|
    ensures p[..|PromptHead|] == PromptHead
    ensures p[|PromptHead|..|PromptHead| + |board|] == board
    ensures p[|PromptHead| + |board|..|PromptHead| + |board| + |PromptMiddle|] == PromptMiddle
    ensures p[|PromptHead| + |board| + |PromptMiddle|..|p| - |PromptTail|] == query
    ensures p[|p| - |PromptTail|..] == PromptTail
  {
    PromptHead + board + PromptMiddle + query + PromptTail
  }

  /** Reads the board (of the given length) and the question back out of a prompt;
      `None` when the fixed text is not where the template puts it. */
  function ParsePrompt(p: string, boardLength: nat): (r: Option<(string, string)>)
    ensures r.Some? ==> |r.value.0| == boardLength
  {
    var fixed := |PromptHead| + |PromptMiddle| + |PromptTail|;
    if |p| < fixed + boardLength then None
    else
      var b := p[|PromptHead|..|PromptHead| + boardLength];
      var q := p[|PromptHead| + boardLength + |PromptMiddle|..|p| - |PromptTail|];
      if p[..|PromptHead|] == PromptHead
         && p[|PromptHead| + boardLength..|PromptHead| + boardLength + |PromptMiddle|] == PromptMiddle
         && p[|p| - |PromptTail|..] == PromptTail
      then Some((b, q))
      else None
  }

  /** Every prompt gives its board and question back. */
  lemma ParseBuiltPrompt(board: string, query: string)
    ensures ParsePrompt(BuildPrompt(board, query), |board|) == Some((board, query))
  {
    var p := BuildPrompt(board, query);
    assert |p| >= |PromptHead| + |PromptMiddle| + |PromptTail| + |board|;
  }

  /** Whatever parses is exactly the prompt of what it parses to. */
  lemma BuildParsedPrompt(p: string, boardLength: nat)
    requires ParsePrompt(p, boardLength).Some?
    ensures BuildPrompt(ParsePrompt(p, boardLength).value.0, ParsePrompt(p, boardLength).value.1) == p
  {
    var (b, q) := ParsePrompt(p, boardLength).value;
    var h, n, m, t, l := |PromptHead|, boardLength, |PromptMiddle|, |PromptTail|, |p|;
    JoinFive(p, h, h + n, h + n + m, l - t, PromptHead, b, PromptMiddle, q, PromptTail);
  }

  /** Two submissions with boards of one length get the same prompt only if they agree. */
  lemma PromptDeterminesRequest(b1: string, q1: string, b2: string, q2: string)
    requires |b1| == |b2| && BuildPrompt(b1, q1) == BuildPrompt(b2, q2)
    ensures b1 == b2 && q1 == q2
  {
    ParseBuiltPrompt(b1, q1);
    ParseBuiltPrompt(b2, q2);
  }

  /** The index `parts.find(part => part.fileData)` stops at: the first part with `fileData`. */
  function FindFileDataPart(parts: seq<Part>): (r: Option<nat>)
    ensures r.Some? ==> r.value < |parts| && parts[r.value].fileData.Some?
    ensures r.Some? ==> forall j :: 0 <= j < r.value ==> parts[j].fileData.None?
    ensures r.None? ==> forall j :: 0 <= j < |parts| ==> parts[j].fileData.None?
  {
    if |parts| == 0 then None
    else if parts[0].fileData.Some? then Some(0)
    else match FindFileDataPart(parts[1..])
      case Some(k) => Some(k + 1)
      case None => None
  }

  /** `find(...)?.fileData?.uri || placeholder`. */
  function SelectVisual(parts: seq<Part>): (v: string)
    ensures v != ""
    ensures (forall j :: 0 <= j < |parts| ==> parts[j].fileData.None?) ==> v == PlaceholderVisual
    ensures forall i :: 0 <= i < |parts| && parts[i].fileData.Some?
                        && (forall j :: 0 <= j < i ==> parts[j].fileData.None?) ==>
              var uri := parts[i].fileData.value.uri;
              v == if uri.Some? && uri.value != "" then uri.value else PlaceholderVisual
  {
    match FindFileDataPart(parts)
    case None => PlaceholderVisual
    case Some(k) =>
      var uri := parts[k].fileData.value.uri;
      if uri.Some? && uri.value != "" then uri.value else PlaceholderVisual
  }

  /** Reads `{ text, visual }` from the remote reply, as lines 10-11 do; a throw on the way
      becomes `Err` with the thrown message. */
  function ReadReply(reply: RemoteReply): (r: Result<Generated, string>)
    ensures r.Ok? <==> reply.Responded? && reply.response.text.Ok? && |reply.response.candidates| > 0
    ensures r.Ok? ==> r.value.text == reply.response.text.value && r.value.visual != ""
    ensures r.Ok? ==> r.value.visual == SelectVisual(reply.response.candidates[0].parts)
    ensures reply.Rejected? ==> r == Err(reply.message)
    ensures reply.Responded? && reply.response.text.Err? ==> r == Err(reply.response.text.error)
    ensures reply.Responded? && reply.response.text.Ok? && |reply.response.candidates| == 0 ==>
              r == Err(NoCandidateError)
  {
    match reply
    case Rejected(m) => Err(m)
    case Responded(resp) =>
      match resp.text
      case Err(m) => Err(m)
      case Ok(t) =>
        if |resp.candidates| == 0 then Err(NoCandidateError)
        else Ok(Generated(t, SelectVisual(resp.candidates[0].parts)))
  }

  /** Only `candidates[0]` is consulted: the other candidates never change the result. */
  lemma OnlyFirstCandidateConsulted(text: Result<string, string>, first: Candidate, rest1: seq<Candidate>, rest2: seq<Candidate>)
    ensures ReadReply(Responded(ContentResponse(text, [first] + rest1)))
            == ReadReply(Responded(ContentResponse(text, [first] + rest2)))
  {
  }

  /** The remote generative model. Its answers are not interpreted: `respond(p, n)` is what
      it replies when the `n`-th call (counting from 0) sends prompt `p`, and `prompts`
      records every prompt it has been sent. */
  class GenerativeModel {
    const respond: (string, nat) -> RemoteReply
    var prompts: seq<string>

    constructor (respond: (string, nat) -> RemoteReply)
      ensures this.respond == respond && prompts == []
    {
      this.respond := respond;
      prompts := [];
    }

    /** `model.generateContent(prompt)`: one remote call. */
    method GenerateContent(prompt: string) returns (reply: RemoteReply)
      modifies this
      ensures prompts == old(prompts) + [prompt]
      ensures reply == respond(prompt, |old(prompts)|)
    {
      reply := respond(prompt, |prompts|);
      prompts := prompts + [prompt];
    }
  }

  /** `generateResponse(query, board)`: one call with the tutoring prompt, then its reply read. */
  method GenerateResponse(model: GenerativeModel, query: string, board: string) returns (r: Result<Generated, string>)
    modifies model
    ensures model.prompts == old(model.prompts) + [BuildPrompt(board, query)]
    ensures r == ReadReply(model.respond(BuildPrompt(board, query), |old(model.prompts)|))
  {
    var prompt := BuildPrompt(board, query);
    var reply := model.GenerateContent(prompt);
    r := ReadReply(reply);
  }
}
