/**
 * The request shapes of the `/ai/chat` route and the construction of the
 * message list the handler dispatches to the completion service.
 */
module Messages {
  import opened Wrappers

  /** The roles a caller may give a turn: the `Literal["user", "assistant"]` of `ChatMsg`. */
  datatype Role = User | Assistant

  /** One caller-supplied chat turn. */
  datatype ChatMsg = ChatMsg(role: Role, content: string)

  /** The request body: a `text` and an optional history of turns. */
  datatype ChatIn = ChatIn(text: string, messages: Option<seq<ChatMsg>>)

  /** One entry of the outbound list: the `{"role": ..., "content": ...}` dictionary. */
  datatype Msg = Msg(role: string, content: string)

  /** The fixed system instruction placed at the head of every dispatched list. */
  const SystemPrompt: string :=
    "Tu es Koala, un assistant vocal bienveillant et clair. "
    + "Tu réponds en français, de façon concise, utile et actionnable. "
    + "Si la demande est floue, tu poses 1 question courte."

  /** The system entry that heads every dispatched list. */
  const SystemMsg: Msg := Msg("system", SystemPrompt)

  /** The string a caller role carries on the wire. */
  function RoleName(r: Role): (name: string)
    ensures name == "user" <==> r == User
    ensures name == "assistant" <==> r == Assistant
    ensures name != "system"
  {
    match r
    case User => "user"
    case Assistant => "assistant"
  }

  /**
   * Reading a role string back, as the request schema does: only "user" and
   * "assistant" are accepted, anything else (in particular "system") is refused.
   */
  function ParseRole(name: string): (r: Option<Role>)
    ensures r.Some? <==> name == "user" || name == "assistant"
    ensures r.Some? ==> RoleName(r.value) == name
  {
    if name == "user" then Some(User)
    else if name == "assistant" then Some(Assistant)
    else None
  }

  /** A caller turn as a dictionary of the outbound list. */
  function ToWire(m: ChatMsg): (w: Msg)
    ensures ParseRole(w.role) == Some(m.role)
    ensures w.content == m.content
  {
    Msg(RoleName(m.role), m.content)
  }

  /** The list comprehension over the caller's turns: same length, turn by turn, in order. */
  function CopyTurns(ms: seq<ChatMsg>): (ws: seq<Msg>)
    ensures |ws| == |ms|
    ensures forall i :: 0 <= i < |ms| ==> ws[i] == ToWire(ms[i])
  {
    if ms == [] then [] else [ToWire(ms[0])] + CopyTurns(ms[1..])
  }

  /** Reads an outbound list back into caller turns; fails on any role a caller may not use. */
  function ParseTurns(ws: seq<Msg>): (r: Option<seq<ChatMsg>>)
  {
    if ws == [] then Some([])
    else
      match (ParseRole(ws[0].role), ParseTurns(ws[1..]))
      case (Some(role), Some(rest)) => Some([ChatMsg(role, ws[0].content)] + rest)
      case _ => None
  }

  /**
   * Python truthiness of `payload.messages`: false for `None` and for the
   * empty list, true for any list holding at least one turn.
   */
  predicate HasTurns(messages: Option<seq<ChatMsg>>)
    ensures HasTurns(messages) <==> messages != None && messages != Some([])
  {
    match messages
    case None => false
    case Some(ms) => |ms| > 0
  }

  /**
   * The history sent after the system entry: the caller's turns copied when
   * `messages` is present and non-empty, otherwise a single user turn with `text`.
   */
  function History(text: string, messages: Option<seq<ChatMsg>>): (h: seq<Msg>)
    ensures HasTurns(messages) ==> |h| == |messages.value|
    ensures HasTurns(messages) ==> forall i :: 0 <= i < |h| ==> h[i] == ToWire(messages.value[i])
    ensures !HasTurns(messages) ==> h == [Msg("user", text)]
  {
    var copied := if HasTurns(messages) then CopyTurns(messages.value) else [];
    if copied == [] then [Msg("user", text)] else copied
  }

  /** The full list handed to the completion service: the system entry, then the history. */
  function BuildDispatch(text: string, messages: Option<seq<ChatMsg>>): (d: seq<Msg>)
    ensures |d| == |History(text, messages)| + 1
    ensures d[0] == SystemMsg && d[1..] == History(text, messages)
  {
    [SystemMsg] + History(text, messages)
  }

  /**
   * With a non-empty history, the dispatched list is the system entry followed
   * by every caller turn, same role and content, in the same order.
   */
  lemma DispatchCopiesTurns(text: string, ms: seq<ChatMsg>)
    requires ms != []
    ensures var d := BuildDispatch(text, Some(ms));
      && |d| == |ms| + 1
      && d[0] == SystemMsg
      && forall i :: 0 <= i < |ms| ==>
           d[i + 1].role == RoleName(ms[i].role) && d[i + 1].content == ms[i].content
  {
  }

  /** Without a history (absent or empty), the dispatched list is the system entry and one user turn holding `text`. */
  lemma DispatchFallsBackToText(text: string, messages: Option<seq<ChatMsg>>)
    requires !HasTurns(messages)
    ensures BuildDispatch(text, messages) == [SystemMsg, Msg("user", text)]
  {
  }

  /** The system role appears only at the head: no caller-derived entry carries it. */
  lemma SystemOnlyAtHead(text: string, messages: Option<seq<ChatMsg>>, i: int)
    requires 1 <= i < |BuildDispatch(text, messages)|
    ensures BuildDispatch(text, messages)[i].role != "system"
    ensures BuildDispatch(text, messages)[i].role == "user" || BuildDispatch(text, messages)[i].role == "assistant"
  {
  }

  /** When a history is present, `text` plays no part in what is dispatched. */
  lemma TextIgnoredWithTurns(t1: string, t2: string, ms: seq<ChatMsg>)
    requires ms != []
    ensures BuildDispatch(t1, Some(ms)) == BuildDispatch(t2, Some(ms))
  {
  }

  /** Reading the copied turns back gives the caller's turns unchanged. */
  lemma {:induction false} ParseCopyRoundTrip(ms: seq<ChatMsg>)
    ensures ParseTurns(CopyTurns(ms)) == Some(ms)
  {
    if ms != [] {
      ParseCopyRoundTrip(ms[1..]);
      assert CopyTurns(ms)[1..] == CopyTurns(ms[1..]);
      assert [ms[0]] + ms[1..] == ms;
    }
  }

  /** The caller's history survives dispatch intact: it can be read back from everything after the head. */
  lemma DispatchRecoversTurns(text: string, ms: seq<ChatMsg>)
    requires ms != []
    ensures ParseTurns(BuildDispatch(text, Some(ms))[1..]) == Some(ms)
  {
    ParseCopyRoundTrip(ms);
  }

  /** The dispatched list as a whole can never be read back as caller turns: its head is the system entry. */
  lemma DispatchHeadIsNotACallerTurn(text: string, messages: Option<seq<ChatMsg>>)
    ensures ParseTurns(BuildDispatch(text, messages)) == None
  {
  }
}
