/** netlify/functions/gemini.ts: the serverless endpoint in front of the
    narrator. It keeps a per-session message window in a module-level map,
    forces the first act on a new game, keeps the act from going back or past
    3 on later turns, and turns every outcome into an HTTP status. The
    narrator's replies are parameters; prompt texts are kept as structured
    values rather than rendered strings. */
module OracleFunction {
  import opened Wrappers
  import opened Types
  import opened Text
  import opened Seqs
  import opened OracleReply

  // --------------------------------------------------------- messages

  /** The two user messages (gemini.ts:179, 210), with the numbers already
      substituted. */
  datatype Prompt =
    | OpeningPrompt(playerInfo: string, initialSkills: string)
    | TurnPrompt(turn: int, act: int, choiceText: string, context: string)

  /** One entry of a session's history: `{role: "user" | "model", parts}`. */
  datatype Entry = UserEntry(prompt: Prompt) | ModelEntry(text: string)

  /** The window bound: ten user/model exchanges (gemini.ts:229-236). */
  const MaxHistory: nat := 20

  /** A stored history: between one and ten exchanges, user first. */
  predicate WellFormedHistory(h: seq<Entry>) {
    2 <= |h| <= MaxHistory && |h| % 2 == 0 &&
    forall i :: 0 <= i < |h| ==> (h[i].UserEntry? <==> i % 2 == 0)
  }

  /** A payload number is truthy when present and not 0. */
  predicate Truthy(x: Option<int>) {
    x.Some? && x.value != 0
  }

  /** `x || 1` (gemini.ts:210). */
  function OrOne(x: Option<int>): (r: int)
    ensures Truthy(x) ==> r == x.value
    ensures !Truthy(x) ==> r == 1
    ensures r != 0
  {
    if Truthy(x) then x.value else 1
  }

  // ---------------------------------------------------------- the act

  /** Raise the reported act to the current one, then cap it at 3
      (gemini.ts:243-249). */
  function ClampAct(reported: int, current: int): (r: int)
    ensures r <= 3
    ensures current <= 3 ==> current <= r
    ensures current <= reported <= 3 ==> r == reported
    ensures r == reported || r == current || r == 3
    ensures reported <= current <= 3 ==> r == current
    ensures reported >= 3 || current >= 3 ==> r == 3
  {
    var raised := if reported < current then current else reported;
    if raised > 3 then 3 else raised
  }

  /** The act edit of the makeChoice reply: only when the reply has a status
      update and the request carried a truthy act (gemini.ts:242). */
  function ClampReply(res: AIResponse, currentAct: Option<int>): (r: AIResponse)
    ensures r.statusUpdate.Some? <==> res.statusUpdate.Some?
    ensures !(res.statusUpdate.Some? && Truthy(currentAct)) ==> r == res
    ensures res.statusUpdate.Some? && Truthy(currentAct) ==>
      r == res.(statusUpdate := Some(res.statusUpdate.value.(currentAct := ClampAct(res.statusUpdate.value.currentAct, currentAct.value))))
  {
    match res.statusUpdate
    case Some(u) =>
      if Truthy(currentAct) then res.(statusUpdate := Some(u.(currentAct := ClampAct(u.currentAct, currentAct.value))))
      else res
    case None => res
  }

  /** With an act between 1 and 3 in the request, the returned act never
      goes back and never passes 3; without one, the reply's act is passed
      on untouched, whatever it is. */
  lemma ActMonotoneOnServer(res: AIResponse, currentAct: Option<int>)
    requires res.statusUpdate.Some?
    ensures Truthy(currentAct) && currentAct.value <= 3 ==>
      currentAct.value <= ClampReply(res, currentAct).statusUpdate.value.currentAct <= 3
    ensures !Truthy(currentAct) ==>
      ClampReply(res, currentAct).statusUpdate.value.currentAct == res.statusUpdate.value.currentAct
  {
  }

  /** The act edit of the startGame reply (gemini.ts:201-203). */
  function ForceFirstAct(res: AIResponse): (r: AIResponse)
    ensures r.statusUpdate.Some? <==> res.statusUpdate.Some?
    ensures r.statusUpdate.Some? ==> r.statusUpdate.value.currentAct == 1
    ensures r.statusUpdate.Some? ==> r.statusUpdate.value.(currentAct := res.statusUpdate.value.currentAct) == res.statusUpdate.value
    ensures r.(statusUpdate := res.statusUpdate) == res
  {
    match res.statusUpdate
    case Some(u) => res.(statusUpdate := Some(u.(currentAct := 1)))
    case None => res
  }

  // ------------------------------------------------------- the window

  /** Appending one exchange to a well-formed (or absent) history and
      dropping the oldest exchange past the bound keeps exactly the last
      twenty entries, and keeps the history well formed. */
  lemma {:induction false} WindowAppend(h: seq<Entry>, p: Prompt, text: string)
    requires h == [] || WellFormedHistory(h)
    ensures var g := h + [UserEntry(p), ModelEntry(text)];
      var w := if |g| > MaxHistory then g[2..] else g;
      w == LastN(g, MaxHistory) && WellFormedHistory(w)
  {
    var g := h + [UserEntry(p), ModelEntry(text)];
    if |g| > MaxHistory {
      var w := g[2..];
      forall i | 0 <= i < |w| ensures w[i].UserEntry? <==> i % 2 == 0 {
        assert w[i] == g[i + 2];
        if i + 2 < |h| { assert g[i + 2] == h[i + 2]; }
      }
    } else {
      forall i | 0 <= i < |g| ensures g[i].UserEntry? <==> i % 2 == 0 {
        if i < |h| { assert g[i] == h[i]; }
      }
    }
  }

  // -------------------------------------------------------- HTTP layer

  /** What a request asks for, after `request.json()`. */
  datatype Call =
    | ValidateCall(actionText: string, context: string, mode: string)
    | StartGameCall(sessionId: string, playerInfo: string, initialSkills: string)
    | MakeChoiceCall(sessionId: string, choiceText: string, context: string, turnNumber: Option<int>, currentAct: Option<int>)
    | GenerateImageCall(prompt: string)
    | UnknownCall(action: string)

  /** A preflight, or a POST whose body parsed to a call or failed to. */
  datatype Request = Preflight | Post(body: Result<Call>)

  datatype Value = VerdictValue(verdict: ValidationResponse) | NarrativeValue(narrative: AIResponse) | ImageValue(image: ImageRef)

  datatype Body = NoBody | JsonBody(value: Value) | ErrorBody(error: string)

  datatype Response = Response(status: int, body: Body)

  const UnknownActionMessage: string := "Ação desconhecida"
  const InternalErrorMessage: string := "Erro interno do servidor"

  /** `new Response(JSON.stringify(result))` or the catch block
      (gemini.ts:297-304): a thrown error becomes status 500 with its
      message, or the generic one when the message is empty. */
  function Respond(out: Result<Value>): (r: Response)
    ensures r.status == 200 <==> out.Ok?
    ensures out.Ok? ==> r.body == JsonBody(out.value)
    ensures out.Err? ==> r.status == 500 && r.body.ErrorBody? && r.body.error != []
    ensures out.Err? && out.message != [] ==> r.body.error == out.message
  {
    match out
    case Ok(v) => Response(200, JsonBody(v))
    case Err(m) => Response(500, ErrorBody(OrText(Some(m), InternalErrorMessage)))
  }

  /** `validate` picks the strict instruction exactly for the tactical mode
      (gemini.ts:155-157). */
  function ValidatorFor(mode: string): (i: Instruction)
    ensures i == Strict <==> mode == "complete"
  {
    if mode == "complete" then Strict else Lenient
  }

  /** The `generateImage` result (gemini.ts:254-287): the first inline
      part as a PNG, else, and on any error, a random placeholder keyed by
      the clock. It never fails. */
  function ImageFor(reply: Result<seq<Part>>, now: int): (img: ImageRef)
    ensures img.InlinePng? <==> reply.Ok? && FirstInline(reply.value).Some?
    ensures img.InlinePng? ==> img.base64 == FirstInline(reply.value).value
    ensures !img.InlinePng? ==> img == RandomPlaceholder(now)
  {
    match reply
    case Ok(parts) =>
      (match FirstInline(parts)
       case Some(data) => InlinePng(data)
       case None => RandomPlaceholder(now))
    case Err(_) => RandomPlaceholder(now)
  }

  /** A verdict or a narration as the value a successful call returns. */
  function Judged(out: Result<ValidationResponse>): Result<Value> {
    match out
    case Ok(v) => Ok(VerdictValue(v))
    case Err(m) => Err(m)
  }

  function Narrated(out: Result<AIResponse>): Result<Value> {
    match out
    case Ok(res) => Ok(NarrativeValue(res))
    case Err(m) => Err(m)
  }

  /** The session map once `startGame` for `id` has been answered with
      `reply`: deleted on a failed call, else exactly the opening exchange. */
  function AfterStart(m: map<string, seq<Entry>>, id: string, playerInfo: string, initialSkills: string,
                      reply: Result<Option<string>>): map<string, seq<Entry>> {
    if reply.Err? then m - {id}
    else m[id := [UserEntry(OpeningPrompt(playerInfo, initialSkills)), ModelEntry(OrText(reply.value, ""))]]
  }

  /** The session map once `makeChoice` for `id` has been answered with
      `reply`: unchanged on a failed call, else the stored history (or
      none) with the exchange appended, cut to the window. */
  function AfterChoice(m: map<string, seq<Entry>>, id: string, choiceText: string, context: string,
                       turnNumber: Option<int>, currentAct: Option<int>,
                       reply: Result<Option<string>>): map<string, seq<Entry>> {
    var history := if id in m then m[id] else [];
    var user := UserEntry(TurnPrompt(OrOne(turnNumber), OrOne(currentAct), choiceText, context));
    if reply.Err? then m
    else m[id := LastN(history + [user, ModelEntry(OrText(reply.value, ""))], MaxHistory)]
  }

  /** The endpoint with its module-level session map. */
  class Endpoint {
    var sessions: map<string, seq<Entry>>
    const parseNarrative: string -> Option<AIResponse>
    const parseVerdict: string -> Option<ValidationResponse>

    predicate Valid()
      reads this
    {
      forall id :: id in sessions ==> WellFormedHistory(sessions[id])
    }

    /** gemini.ts:130. */
    constructor (parseNarrative: string -> Option<AIResponse>, parseVerdict: string -> Option<ValidationResponse>)
      ensures Valid() && sessions == map[]
      ensures this.parseNarrative == parseNarrative && this.parseVerdict == parseVerdict
    {
      sessions := map[];
      this.parseNarrative := parseNarrative;
      this.parseVerdict := parseVerdict;
    }

    /** `validate` (gemini.ts:153-170): the verdict parsed from the reply,
        with `"{}"` standing in for a missing or empty text. */
    function Validate(reply: Result<Option<string>>): (out: Result<ValidationResponse>)
      ensures reply.Err? ==> out == Err(reply.message)
      ensures reply.Ok? ==> out == SafeParseJson(OrText(reply.value, "{}"), parseVerdict)
    {
      match reply
      case Err(m) => Err(m)
      case Ok(text) => SafeParseJson(OrText(text, "{}"), parseVerdict)
    }

    /** What `startGame` returns for a reply: the parsed opening with its
        act forced to 1. */
    function StartOutcome(reply: Result<Option<string>>): Result<AIResponse> {
      match reply
      case Err(m) => Err(m)
      case Ok(text) =>
        (match SafeParseJson(OrText(text, "{}"), parseNarrative)
         case Ok(res) => Ok(ForceFirstAct(res))
         case Err(m) => Err(m))
    }

    /** What `makeChoice` returns for a reply: the parsed narration with its
        act clamped. */
    function ChoiceOutcome(reply: Result<Option<string>>, currentAct: Option<int>): Result<AIResponse> {
      match reply
      case Err(m) => Err(m)
      case Ok(text) =>
        (match SafeParseJson(OrText(text, "{}"), parseNarrative)
         case Ok(res) => Ok(ClampReply(res, currentAct))
         case Err(m) => Err(m))
    }

    /** `startGame` (gemini.ts:172-205): the session's history is deleted,
        then, once the narrator answers, set to exactly the opening exchange;
        the parsed reply is forced to act 1. A failed call leaves the
        session deleted. */
    method StartGame(sessionId: string, playerInfo: string, initialSkills: string, reply: Result<Option<string>>)
      returns (out: Result<AIResponse>)
      requires Valid()
      modifies this
      ensures Valid()
      ensures reply.Err? ==> sessions == old(sessions) - {sessionId} && out == Err(reply.message)
      ensures reply.Ok? ==> sessions == old(sessions)[sessionId :=
        [UserEntry(OpeningPrompt(playerInfo, initialSkills)), ModelEntry(OrText(reply.value, ""))]]
      ensures reply.Ok? ==> out == match SafeParseJson(OrText(reply.value, "{}"), parseNarrative)
        case Ok(res) => Ok(ForceFirstAct(res))
        case Err(m) => Err(m)
      ensures out.Ok? && out.value.statusUpdate.Some? ==> out.value.statusUpdate.value.currentAct == 1
      ensures sessions == AfterStart(old(sessions), sessionId, playerInfo, initialSkills, reply)
      ensures out == StartOutcome(reply)
    {
      sessions := sessions - {sessionId};
      if reply.Err? {
        return Err(reply.message);
      }
      var user := UserEntry(OpeningPrompt(playerInfo, initialSkills));
      var model := ModelEntry(OrText(reply.value, ""));
      sessions := sessions[sessionId := [user, model]];
      var parsed := SafeParseJson(OrText(reply.value, "{}"), parseNarrative);
      match parsed
      case Ok(res) => out := Ok(ForceFirstAct(res));
      case Err(m) => out := Err(m);
    }

    /** `makeChoice` (gemini.ts:207-252). The request is the stored history
        (or none) followed by the new user message. After the answer, the
        exchange is appended and the stored window is its last twenty
        entries, oldest evicted first; this happens before the reply is
        parsed, so a reply that fails to parse still counts as a turn. */
    method MakeChoice(sessionId: string, choiceText: string, context: string,
                      turnNumber: Option<int>, currentAct: Option<int>, reply: Result<Option<string>>)
      returns (request: seq<Entry>, out: Result<AIResponse>)
      requires Valid()
      modifies this
      ensures Valid()
      ensures var history := if sessionId in old(sessions) then old(sessions)[sessionId] else [];
        var user := UserEntry(TurnPrompt(OrOne(turnNumber), OrOne(currentAct), choiceText, context));
        request == history + [user] &&
        (reply.Err? ==> sessions == old(sessions) && out == Err(reply.message)) &&
        (reply.Ok? ==> sessions == old(sessions)[sessionId :=
           LastN(history + [user, ModelEntry(OrText(reply.value, ""))], MaxHistory)])
      ensures reply.Ok? ==> out == match SafeParseJson(OrText(reply.value, "{}"), parseNarrative)
        case Ok(res) => Ok(ClampReply(res, currentAct))
        case Err(m) => Err(m)
      ensures sessions == AfterChoice(old(sessions), sessionId, choiceText, context, turnNumber, currentAct, reply)
      ensures out == ChoiceOutcome(reply, currentAct)
    {
      var user := UserEntry(TurnPrompt(OrOne(turnNumber), OrOne(currentAct), choiceText, context));
      var history := if sessionId in sessions then sessions[sessionId] else [];
      request := history + [user];
      if reply.Err? {
        return request, Err(reply.message);
      }
      var model := ModelEntry(OrText(reply.value, ""));
      WindowAppend(history, user.prompt, model.text);
      history := history + [user, model];
      if |history| > MaxHistory {
        history := history[2..];
      }
      sessions := sessions[sessionId := history];
      var parsed := SafeParseJson(OrText(reply.value, "{}"), parseNarrative);
      match parsed
      case Ok(res) => out := Ok(ClampReply(res, currentAct));
      case Err(m) => out := Err(m);
    }

    /** The handler (gemini.ts:132-306). `textReply` is the narrator's
        answer to a text call, `imageReply` to an image call, `now` the
        clock. Preflight gets an empty 200, an unknown action 400, anything
        thrown 500; only the two game calls touch the session map. */
    method Handle(req: Request, textReply: Result<Option<string>>, imageReply: Result<seq<Part>>, now: int)
      returns (resp: Response)
      requires Valid()
      modifies this
      ensures Valid()
      ensures req.Preflight? ==> resp == Response(200, NoBody)
      ensures resp.status == 400 <==> req.Post? && req.body.Ok? && req.body.value.UnknownCall?
      ensures resp.status == 400 ==> resp.body == ErrorBody(UnknownActionMessage)
      ensures resp.status == 200 || resp.status == 400 || resp.status == 500
      ensures resp.status == 500 ==> resp.body.ErrorBody? && resp.body.error != []
      ensures req.Post? && req.body.Ok? && req.body.value.GenerateImageCall? ==>
        resp == Response(200, JsonBody(ImageValue(ImageFor(imageReply, now))))
      ensures !(req.Post? && req.body.Ok? && (req.body.value.StartGameCall? || req.body.value.MakeChoiceCall?)) ==>
        sessions == old(sessions)
      ensures req.Post? && req.body.Err? ==> resp == Respond(Err(req.body.message))
      ensures req.Post? && req.body.Ok? && req.body.value.ValidateCall? ==>
        resp == Respond(Judged(Validate(textReply)))
      ensures req.Post? && req.body.Ok? && req.body.value.StartGameCall? ==>
        var c := req.body.value;
        && resp == Respond(Narrated(StartOutcome(textReply)))
        && sessions == AfterStart(old(sessions), c.sessionId, c.playerInfo, c.initialSkills, textReply)
      ensures req.Post? && req.body.Ok? && req.body.value.MakeChoiceCall? ==>
        var c := req.body.value;
        && resp == Respond(Narrated(ChoiceOutcome(textReply, c.currentAct)))
        && sessions == AfterChoice(old(sessions), c.sessionId, c.choiceText, c.context, c.turnNumber, c.currentAct, textReply)
    {
      match req
      case Preflight =>
        resp := Response(200, NoBody);
      case Post(Err(m)) =>
        resp := Respond(Err(m));
      case Post(Ok(call)) =>
        match call
        case ValidateCall(_, _, _) =>
          var out := Validate(textReply);
          resp := Respond(Judged(out));
        case StartGameCall(id, info, skills) =>
          var out := StartGame(id, info, skills, textReply);
          resp := Respond(Narrated(out));
        case MakeChoiceCall(id, choice, context, turn, act) =>
          var _, out := MakeChoice(id, choice, context, turn, act, textReply);
          resp := Respond(Narrated(out));
        case GenerateImageCall(_) =>
          resp := Respond(Ok(ImageValue(ImageFor(imageReply, now))));
        case UnknownCall(_) =>
          resp := Response(400, ErrorBody(UnknownActionMessage));
    }
  }
}
