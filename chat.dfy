/** The chat turn of `handleSend` (src/App.jsx:80-118), split at its awaits
    into events, together with the state it reads and writes: the input box,
    `isThinking`, `mood`, the stored messages, the `speak` calls and the
    3000 ms return-to-neutral timers it arms.

    A turn starts when the guard at line 81 passes. It then waits for the user
    message to be stored (line 84), for the reply from the language model when
    its captured API key is non-empty (lines 95-104), and for the reply to be
    stored (line 107). Each wait ends in success or failure; the event methods
    below are those endings. Several turns can be waiting at once: the guard
    reads `isThinking`, which is only set once the user message is stored. */
module Chat {
  import opened Wrappers
  import opened Transcript
  import opened Face
  import JsString
  import Wav

  /** The reply used without an API key or without candidate text. */
  const CANNED_REPLY: string := "I'm vibing! \U{2728}"

  /** `data.candidates?.[0]?.content?.parts?.[0]?.text || reply`: the model's
      text when there is some, the canned reply when it is missing or empty. */
  function ReplyText(candidate: Option<string>): (reply: string)
    ensures reply != []
    ensures candidate.Some? && candidate.value != [] ==> reply == candidate.value
    ensures candidate.None? || candidate.value == [] ==> reply == CANNED_REPLY
  {
    if candidate.Some? && candidate.value != [] then candidate.value else CANNED_REPLY
  }

  /** The await a turn is suspended at. */
  datatype Stage =
    | StoringUserMessage        // line 84
    | AwaitingReply             // lines 95-103, only with an API key
    | StoringReply(reply: string) // line 107

  /** One running invocation of `handleSend`: the trimmed text it sends, the
      API key its closure captured, and where it waits. */
  datatype Turn = Turn(text: string, apiKey: string, stage: Stage)

  /** The turn that a stored user message moves on to: it asks the model when
      it holds a key, and otherwise stores the canned reply directly. */
  function AfterUserMessage(t: Turn): (next: Turn)
    ensures next.text == t.text && next.apiKey == t.apiKey
    ensures t.apiKey != [] <==> next.stage == AwaitingReply
    ensures t.apiKey == [] <==> next.stage == StoringReply(CANNED_REPLY)
  {
    if t.apiKey != [] then t.(stage := AwaitingReply) else t.(stage := StoringReply(CANNED_REPLY))
  }

  class Companion {
    var input: string
    var mood: Mood
    var isThinking: bool
    var signedIn: bool
    var apiKey: string
    var isMuted: bool
    var isAwake: bool
    /** The transcript shown, as the last non-empty snapshot left it. */
    var messages: seq<Message>
    /** The running turns, by start order. */
    var turns: map<nat, Turn>
    var nextTurn: nat
    /** Return-to-neutral timers armed and not yet fired. */
    var pendingTimers: nat
    /** Every message document stored, in the order the writes completed. */
    ghost var persisted: seq<Message>
    /** The text of every `speak` call. */
    ghost var spoken: seq<string>
    /** The texts of the `speak` calls that got past its guard and asked the
        speech service for audio. */
    ghost var speechRequests: seq<string>
    /** The turn whose stored user message last set `isThinking` and the
        thinking mood. */
    ghost var lastThinking: nat

    /** A turn past its user message: it has set `isThinking` and `mood`. */
    ghost predicate Replying(id: nat)
      reads this`turns
    {
      id in turns && !turns[id].stage.StoringUserMessage?
    }

    /** No turn id is reused; the transcript is sorted; `isThinking` is only
        set while the turn that set it is still running; and a mood other than
        neutral always has a way back: that running turn, whose `finally` arms
        a timer, or an armed timer. */
    ghost predicate Valid()
      reads this
    {
      && (forall id :: id in turns ==> id < nextTurn)
      && SortedByTimestamp(messages)
      && (isThinking ==> Replying(lastThinking))
      && (mood != Neutral ==> pendingTimers > 0 || Replying(lastThinking))
    }

    /** The component's first render: `storedKey` is what `localStorage` held
        under `eilo_key` (or the empty string). */
    constructor (storedKey: string)
      ensures Valid()
      ensures input == [] && mood == Neutral && !isThinking && !signedIn
      ensures apiKey == storedKey && !isMuted && isAwake
      ensures messages == [] && turns == map[] && pendingTimers == 0
      ensures persisted == [] && spoken == [] && speechRequests == []
    {
      input, mood, isThinking, signedIn := [], Neutral, false, false;
      apiKey, isMuted, isAwake := storedKey, false, true;
      messages, turns, nextTurn, pendingTimers := [], map[], 0, 0;
      persisted, spoken, speechRequests, lastThinking := [], [], [], 0;
    }

    /** `onAuthStateChanged` reports a user or none (line 36). */
    method AuthChanged(user: bool)
      requires Valid()
      modifies this`signedIn
      ensures Valid() && signedIn == user
    {
      signedIn := user;
    }

    /** The input box changes (line 190). */
    method InputEdited(text: string)
      requires Valid()
      modifies this`input
      ensures Valid() && input == text
    {
      input := text;
    }

    /** The key field of the settings dialog changes (line 202). */
    method ApiKeyEdited(key: string)
      requires Valid()
      modifies this`apiKey
      ensures Valid() && apiKey == key
    {
      apiKey := key;
    }

    /** A message snapshot arrives (lines 42-45). */
    method SnapshotArrived(docs: seq<Message>)
      requires Valid()
      modifies this`messages
      ensures Valid()
      ensures messages == NextTranscript(old(messages), docs)
      ensures docs == [] ==> messages == old(messages)
      ensures docs != [] ==> multiset(messages) == multiset(docs)
    {
      messages := NextTranscript(messages, docs);
    }

    /** `handleSend` is called (lines 81-84): nothing happens when the trimmed
        input is empty, a turn is thinking, or nobody is signed in; otherwise a
        turn starts storing the trimmed input as a user message. Neither the
        input, `isThinking`, the mood nor any stored message changes yet. */
    method Send() returns (started: bool, id: nat)
      requires Valid()
      modifies this`turns, this`nextTurn
      ensures Valid()
      ensures started <==> JsString.Trim(input) != [] && !isThinking && signedIn
      ensures started ==> id == old(nextTurn) && nextTurn == id + 1 && id !in old(turns)
      ensures started ==> turns == old(turns)[id := Turn(JsString.Trim(input), apiKey, StoringUserMessage)]
      ensures !started ==> turns == old(turns) && nextTurn == old(nextTurn)
      ensures input == old(input) && isThinking == old(isThinking) && mood == old(mood)
      ensures persisted == old(persisted) && spoken == old(spoken)
    {
      var text := JsString.Trim(input);
      if text == [] || isThinking || !signedIn {
        return false, 0;
      }
      started, id := true, nextTurn;
      turns := turns[id := Turn(text, apiKey, StoringUserMessage)];
      nextTurn := nextTurn + 1;
    }

    /** The user message is stored (lines 84-91), with the timestamp `now`
        that `Date.now()` gave when the write was issued: role `'user'`
        and the trimmed text; then the input is cleared, `isThinking` set and
        the mood becomes thinking. */
    method UserMessageStored(id: nat, now: int)
      requires Valid() && id in turns && turns[id].stage == StoringUserMessage
      modifies this`persisted, this`input, this`isThinking, this`mood, this`turns, this`lastThinking
      ensures Valid()
      ensures persisted == old(persisted) + [Message(User, old(turns[id].text), now)]
      ensures input == [] && isThinking && mood == Thinking
      ensures turns == old(turns)[id := AfterUserMessage(old(turns[id]))]
      ensures spoken == old(spoken) && pendingTimers == old(pendingTimers)
    {
      var t := turns[id];
      persisted := persisted + [Message(User, t.text, now)];
      input, isThinking, mood := [], true, Thinking;
      turns := turns[id := AfterUserMessage(t)];
      lastThinking := id;
    }

    /** Storing the user message fails: the rejection escapes `handleSend`
        before its `try`, so nothing else changes and no timer is armed. */
    method UserMessageFailed(id: nat)
      requires Valid() && id in turns && turns[id].stage == StoringUserMessage
      modifies this`turns
      ensures Valid()
      ensures turns == old(turns) - {id}
      ensures input == old(input) && isThinking == old(isThinking) && mood == old(mood)
      ensures persisted == old(persisted) && spoken == old(spoken) && pendingTimers == old(pendingTimers)
    {
      turns := turns - {id};
    }

    /** The model answers (lines 103-104); `candidate` is the first candidate's
        first part's text, if any. The turn goes on to store the reply. */
    method ReplyArrived(id: nat, candidate: Option<string>)
      requires Valid() && id in turns && turns[id].stage == AwaitingReply
      modifies this`turns
      ensures Valid()
      ensures turns == old(turns)[id := old(turns[id]).(stage := StoringReply(ReplyText(candidate)))]
      ensures input == old(input) && isThinking == old(isThinking) && mood == old(mood)
      ensures persisted == old(persisted) && spoken == old(spoken) && pendingTimers == old(pendingTimers)
    {
      turns := turns[id := turns[id].(stage := StoringReply(ReplyText(candidate)))];
    }

    /** The model request or its JSON decoding fails (lines 95-103, caught at
        112-116): mood neutral, `isThinking` cleared, one timer armed, and
        no reply stored or spoken. */
    method ReplyFailed(id: nat)
      requires Valid() && id in turns && turns[id].stage == AwaitingReply
      modifies this`turns, this`mood, this`isThinking, this`pendingTimers
      ensures Valid()
      ensures turns == old(turns) - {id}
      ensures mood == Neutral && !isThinking && pendingTimers == old(pendingTimers) + 1
      ensures input == old(input)
      ensures persisted == old(persisted) && spoken == old(spoken) && speechRequests == old(speechRequests)
    {
      turns := turns - {id};
      mood, isThinking := Neutral, false;
      pendingTimers := pendingTimers + 1;
    }

    /** The reply is stored (lines 107-111, then 114-116), with the timestamp
        `now` that `Date.now()` gave when the write was issued: one
        `'eilo'` message with the reply, mood happy, one `speak` call with the
        reply (asking for audio when unmuted and the captured key is
        non-empty), then `isThinking` cleared and one timer armed. */
    method ReplyStored(id: nat, now: int)
      requires Valid() && id in turns && turns[id].stage.StoringReply?
      modifies this`turns, this`persisted, this`mood, this`spoken, this`speechRequests
      modifies this`isThinking, this`pendingTimers
      ensures Valid()
      ensures turns == old(turns) - {id}
      ensures persisted == old(persisted) + [Message(Eilo, old(turns[id].stage.reply), now)]
      ensures mood == Happy
      ensures spoken == old(spoken) + [old(turns[id].stage.reply)]
      ensures speechRequests == old(speechRequests)
                                + (if Wav.SpeechRequested(isMuted, old(turns[id]).apiKey)
                                   then [old(turns[id]).stage.reply] else [])
      ensures !isThinking && pendingTimers == old(pendingTimers) + 1
      ensures input == old(input)
    {
      var t := turns[id];
      ghost var requested := Wav.SpeechRequested(isMuted, t.apiKey);
      turns := turns - {id};
      persisted := persisted + [Message(Eilo, t.stage.reply, now)];
      mood := Happy;
      spoken := spoken + [t.stage.reply];
      speechRequests := speechRequests + if requested then [t.stage.reply] else [];
      isThinking := false;
      pendingTimers := pendingTimers + 1;
    }

    /** Storing the reply fails (line 107, caught at 112-116): mood neutral,
        `isThinking` cleared, one timer armed; nothing stored or spoken. */
    method ReplyStoreFailed(id: nat)
      requires Valid() && id in turns && turns[id].stage.StoringReply?
      modifies this`turns, this`mood, this`isThinking, this`pendingTimers
      ensures Valid()
      ensures turns == old(turns) - {id}
      ensures mood == Neutral && !isThinking && pendingTimers == old(pendingTimers) + 1
      ensures input == old(input)
      ensures persisted == old(persisted) && spoken == old(spoken) && speechRequests == old(speechRequests)
    {
      turns := turns - {id};
      mood, isThinking := Neutral, false;
      pendingTimers := pendingTimers + 1;
    }

    /** A return timer fires (line 116): the mood becomes neutral, whatever it
        was and whichever turn armed the timer. */
    method TimerFired()
      requires Valid() && pendingTimers > 0
      modifies this`mood, this`pendingTimers
      ensures Valid()
      ensures mood == Neutral && pendingTimers == old(pendingTimers) - 1
    {
      mood := Neutral;
      pendingTimers := pendingTimers - 1;
    }

    /** The eyes drawn for the current state. */
    function Eyes(): (e: Face.Eyes)
      reads this
      ensures isAwake ==> MoodShown(e) == Some(mood)
    {
      EyesRevealMood(isAwake, mood);
      EyesFor(isAwake, mood)
    }
  }

  /** Two clicks on send before the first user message is stored both start a
      turn: the guard at line 81 still reads `isThinking` as false, so a
      state that admits one turn admits a second identical one. */
  method TwoTurnsInFlight(c: Companion) returns (first: nat, second: nat)
    requires c.Valid() && c.signedIn && !c.isThinking && JsString.Trim(c.input) != []
    modifies c
    ensures c.Valid() && first != second && first !in old(c.turns) && second !in old(c.turns)
    ensures c.turns == old(c.turns)[first := Turn(JsString.Trim(c.input), c.apiKey, StoringUserMessage)]
                                   [second := Turn(JsString.Trim(c.input), c.apiKey, StoringUserMessage)]
  {
    var started1, started2;
    started1, first := c.Send();
    started2, second := c.Send();
  }
}
