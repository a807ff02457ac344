/** The asynchronous Cleverbot client bundled with the Cleverbot plugin
    (cleverbot/asynccleverbot/cleverbot.py): the two-query context window
    kept per conversation, the emotion table, and how an API answer is
    turned into a response or an error. The HTTP exchange itself is a
    parameter. */
module Cleverbot {
  import opened Wrappers

  // ---------------------------------------------------------------------
  // Emotions

  /** `Emotion`: ten names, five members; the second name of each pair is
      an alias of the first member with that value. */
  datatype Emotion = Neutral | Sadness | Fear | Joy | Anger

  /** The string an emotion sends to the API. */
  function EmotionValue(e: Emotion): string {
    match e
    case Neutral => "neutral"
    case Sadness => "sadness"
    case Fear => "fear"
    case Joy => "joy"
    case Anger => "anger"
  }

  /** `Emotion[name]` (cleverbot/asynccleverbot/cleverbot.py:30-42). */
  function EmotionByName(name: string): (e: Option<Emotion>)
    ensures e.Some? <==> name in {"neutral", "normal", "sad", "sadness", "fear", "scared", "joy", "happy", "anger", "angry"}
  {
    if name == "neutral" || name == "normal" then Some(Neutral)
    else if name == "sad" || name == "sadness" then Some(Sadness)
    else if name == "fear" || name == "scared" then Some(Fear)
    else if name == "joy" || name == "happy" then Some(Joy)
    else if name == "anger" || name == "angry" then Some(Anger)
    else None
  }

  /** Each member's value is also its canonical name, each alias names the
      member whose value it shares, and different members send different
      values. */
  lemma EmotionAliases(e: Emotion, f: Emotion)
    ensures EmotionByName(EmotionValue(e)) == Some(e)
    ensures EmotionByName("normal") == Some(Neutral) && EmotionByName("sad") == Some(Sadness)
    ensures EmotionByName("scared") == Some(Fear) && EmotionByName("happy") == Some(Joy)
    ensures EmotionByName("angry") == Some(Anger)
    ensures EmotionValue(e) == EmotionValue(f) <==> e == f
  {
    if EmotionValue(e) == EmotionValue(f) {
      assert EmotionByName(EmotionValue(e)) == EmotionByName(EmotionValue(f));
    }
  }

  // ---------------------------------------------------------------------
  // The context window

  /** The key of a conversation; `None` is a key of its own. */
  type ContextId = Option<nat>

  /** The dict `update_context` returns and `ask` sends: the query, and
      the stored history when the window overflowed. */
  datatype Request = Request(text: string, context: Option<seq<string>>)

  /** `DictContext.update_context` on values (cleverbot/asynccleverbot/cleverbot.py:59-73).
      The returned `context` is the stored list itself, so it is the list
      after the new query was appended and the oldest one dropped. */
  function UpdateContextSpec(storage: map<ContextId, seq<string>>, id: ContextId, query: string): (r: (map<ContextId, seq<string>>, Request))
    ensures r.1.text == query
    ensures id in r.0 && |r.0[id]| >= 1 && r.0[id][|r.0[id]| - 1] == query
    ensures forall k :: k != id ==> (k in r.0 <==> k in storage) && (k in storage ==> r.0[k] == storage[k])
  {
    if id !in storage then (storage[id := [query]], Request(query, None))
    else
      var grown := storage[id] + [query];
      if |grown| > 2 then (storage[id := grown[1..]], Request(query, Some(grown[1..])))
      else (storage[id := grown], Request(query, None))
  }

  /** Every stored history holds one or two queries. */
  predicate WindowInvariant(storage: map<ContextId, seq<string>>) {
    forall k :: k in storage ==> 1 <= |storage[k]| <= 2
  }

  /** One update keeps every history at one or two queries; the first call
      for an id stores `[query]` and sends no context; a context is sent
      exactly when the id already held two queries, and it is then the
      previous query followed by the new one, which is also what is
      stored. */
  lemma {:induction false} UpdateContextWindow(storage: map<ContextId, seq<string>>, id: ContextId, query: string)
    requires WindowInvariant(storage)
    ensures var (storage', request) := UpdateContextSpec(storage, id, query);
      && WindowInvariant(storage')
      && (id !in storage ==> storage'[id] == [query] && request.context.None?)
      && (request.context.Some? <==> id in storage && |storage[id]| == 2)
      && (request.context.Some? ==> request.context.value == storage'[id] == [storage[id][1], query])
      && (id in storage && |storage[id]| == 1 ==> storage'[id] == [storage[id][0], query])
  {
    var (storage', request) := UpdateContextSpec(storage, id, query);
    forall k | k in storage' ensures 1 <= |storage'[k]| <= 2 {
      if k != id {
        assert storage'[k] == storage[k];
      }
    }
    if id in storage && |storage[id]| == 2 {
      assert (storage[id] + [query])[1..] == [storage[id][1], query];
    }
  }

  /** The queries sent for one id, one after the other. */
  function Replay(storage: map<ContextId, seq<string>>, id: ContextId, queries: seq<string>): map<ContextId, seq<string>>
    decreases |queries|
  {
    if queries == [] then storage
    else UpdateContextSpec(Replay(storage, id, queries[..|queries| - 1]), id, queries[|queries| - 1]).0
  }

  /** The last `n` elements of `s`, or all of it when it is shorter. */
  function LastN(s: seq<string>, n: nat): (r: seq<string>)
    ensures |r| <= n && |r| <= |s|
  {
    if |s| <= n then s else s[|s| - n..]
  }

  /** Whatever was sent before, the history of a fresh id is always its
      last two queries, oldest first. */
  lemma {:induction false} ReplayKeepsLastTwo(storage: map<ContextId, seq<string>>, id: ContextId, queries: seq<string>)
    requires id !in storage && queries != []
    ensures id in Replay(storage, id, queries) && Replay(storage, id, queries)[id] == LastN(queries, 2)
    decreases |queries|
  {
    var prefix := queries[..|queries| - 1];
    var q := queries[|queries| - 1];
    if prefix == [] {
      assert queries == [q];
    } else {
      ReplayKeepsLastTwo(storage, id, prefix);
      var before := Replay(storage, id, prefix);
      assert before[id] == LastN(prefix, 2);
      if |prefix| == 1 {
        assert before[id] + [q] == queries;
      } else {
        assert (before[id] + [q])[1..] == queries[|queries| - 2..];
      }
    }
  }

  /** A conversation's history is never touched by queries for another
      id. */
  lemma {:induction false} ReplayLeavesOthers(storage: map<ContextId, seq<string>>, id: ContextId, other: ContextId, queries: seq<string>)
    requires other != id
    ensures other in Replay(storage, id, queries) <==> other in storage
    ensures other in storage ==> Replay(storage, id, queries)[other] == storage[other]
    decreases |queries|
  {
    if queries != [] {
      ReplayLeavesOthers(storage, id, other, queries[..|queries| - 1]);
    }
  }

  /** `DictContext`: the histories, updated in place. */
  class DictContext {
    var storage: map<ContextId, seq<string>>

    constructor ()
      ensures storage == map[]
    {
      storage := map[];
    }

    /** `update_context` (cleverbot/asynccleverbot/cleverbot.py:59-73). */
    method UpdateContext(id: ContextId, query: string) returns (request: Request)
      modifies this
      ensures (storage, request) == UpdateContextSpec(old(storage), id, query)
    {
      if id !in storage {
        storage := storage[id := [query]];
        return Request(query, None);
      }
      var grown := storage[id] + [query];
      storage := storage[id := grown];
      if |storage[id]| > 2 {
        storage := storage[id := storage[id][1..]];
        assert storage == old(storage)[id := grown[1..]];
        return Request(query, Some(storage[id]));
      }
      request := Request(query, None);
    }
  }

  // ---------------------------------------------------------------------
  // Responses and errors

  /** The JSON values an API answer carries. */
  datatype Json = JString(s: string) | JNumber(n: int) | JNull

  /** `Response`: the bot's text and the status the API gave. */
  datatype Response = Response(text: Json, status: Json)

  /** The exceptions `ask` and its helpers raise. */
  datatype AskError = APIDown | InvalidKey | ValueError | TypeError

  /** `Response.from_raw` (cleverbot/asynccleverbot/cleverbot.py:89-95). */
  function FromRaw(data: map<string, Json>): (r: Result<Response, AskError>)
    ensures r.Err? <==> "response" !in data || "status" !in data
    ensures r.Err? ==> r.error == APIDown
    ensures r.Ok? ==> r.value.text == data["response"] && r.value.status == data["status"]
  {
    if "response" in data && "status" in data then Ok(Response(data["response"], data["status"])) else Err(APIDown)
  }

  const InvalidCredentials := "Invalid authorization credentials"
  const MalformedSentinel := "The server returned a malformed response or it is down."

  /** The classification at the end of `ask`
      (cleverbot/asynccleverbot/cleverbot.py:133-148); `None` stands for a
      body that is not JSON. */
  function Classify(resp: Option<map<string, Json>>): (r: Result<Response, AskError>)
    ensures resp.None? ==> r == Err(APIDown)
    ensures resp.Some? && "error" in resp.value && resp.value["error"] == JString(InvalidCredentials) ==> r == Err(InvalidKey)
    ensures (resp.Some? && "response" in resp.value && resp.value["response"] == JString(MalformedSentinel) &&
             !("error" in resp.value && resp.value["error"] == JString(InvalidCredentials))) ==> r == Err(APIDown)
    ensures r.Ok? ==> resp.Some? && r == FromRaw(resp.value)
    ensures r.Err? ==> r.error == APIDown || r.error == InvalidKey
  {
    if resp.None? then Err(APIDown)
    else if "error" in resp.value && resp.value["error"] == JString(InvalidCredentials) then Err(InvalidKey)
    else if "response" in resp.value && resp.value["response"] == JString(MalformedSentinel) then Err(APIDown)
    else FromRaw(resp.value)
  }

  /** What `ask` may be handed as its emotion: a member, or anything else. */
  datatype EmotionArg = EmotionMember(e: Emotion) | NotAnEmotion

  /** What `set_context` may be handed: a `DictContext`, or anything else. */
  datatype ContextArg = DictArg(d: DictContext) | OtherContext

  /** The form sent to the API: the request plus the emotion's value. */
  datatype Payload = Payload(request: Request, emotion: string)

  /** `Cleverbot`, with the HTTP session left out. */
  class Cleverbot {
    var context: Option<DictContext>

    constructor ()
      ensures context.None?
    {
      context := None;
    }

    /** `set_context` (cleverbot/asynccleverbot/cleverbot.py:113-118). */
    method SetContext(arg: ContextArg) returns (r: Result<(), AskError>)
      modifies this
      ensures arg.OtherContext? ==> r == Err(TypeError) && context == old(context)
      ensures arg.DictArg? ==> r == Ok(()) && context == Some(arg.d)
    {
      if arg.OtherContext? {
        return Err(TypeError);
      }
      context := Some(arg.d);
      r := Ok(());
    }

    /** `ask` (cleverbot/asynccleverbot/cleverbot.py:120-148); `resp` is the
        body the API answers, `None` when it is not JSON. A bad emotion is
        refused before the history is touched. */
    method Ask(query: string, id: ContextId, emotion: EmotionArg, resp: Option<map<string, Json>>)
      returns (sent: Option<Payload>, r: Result<Response, AskError>)
      modifies if context.Some? then {context.value} else {}
      ensures emotion.NotAnEmotion? ==>
        && r == Err(ValueError) && sent.None?
        && (context.Some? ==> context.value.storage == old(context.value.storage))
      ensures emotion.EmotionMember? ==> r == Classify(resp) && sent.Some? && sent.value.emotion == EmotionValue(emotion.e)
      ensures emotion.EmotionMember? && context.None? ==> sent.value.request == Request(query, None)
      ensures emotion.EmotionMember? && context.Some? ==>
        (context.value.storage, sent.value.request) == UpdateContextSpec(old(context.value.storage), id, query)
    {
      if emotion.NotAnEmotion? {
        return None, Err(ValueError);
      }
      var request;
      if context.Some? {
        request := context.value.UpdateContext(id, query);
      } else {
        request := Request(query, None);
      }
      sent := Some(Payload(request, EmotionValue(emotion.e)));
      r := Classify(resp);
    }
  }
}
