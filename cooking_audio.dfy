/** The cooking page's voice session: the queue of spoken replies the server
    sends, the "assistant is speaking" flag, interruption by the user's voice,
    and the dispatch of server messages. */
module CookingAudio {
  import opened Base
  import opened Text
  import opened CookingNavigation

  /** An `audio` message: the reply's text and the URL of its sound file. */
  datatype AudioReply = AudioReply(text: string, audioUrl: string)

  /** A message from the voice server, by its `type`. */
  datatype ServerMessage =
    | Transcript(text: string)
    | Audio(reply: AudioReply)
    | EndOfResponse
    | ServerError(message: string)
    | Unknown

  /** The file name the page asks the server to delete once a reply has played:
      the last `/`-separated part of its URL. */
  function DeletedFileName(reply: AudioReply): (name: string)
    ensures '/' !in name
    ensures exists k | 0 <= k <= |reply.audioUrl| ::
      name == reply.audioUrl[k..] && (k == 0 || reply.audioUrl[k - 1] == '/')
  {
    AfterLastSlash(reply.audioUrl)
  }

  class VoiceSession {
    /** Replies waiting to be played, oldest first. */
    var audioQueue: seq<AudioReply>
    var isAiSpeaking: bool
    /** The reply of `currentAudioPlayer`, while the page holds one. */
    var currentPlayer: Option<AudioReply>
    /** File names sent to the server's delete endpoint, in order. */
    var deleteRequests: seq<string>
    var userSpeaking: bool
    /** How many `interrupt` messages have been sent. */
    var interruptsSent: nat
    /** Replies queued since the queue was last cleared, in arrival order. */
    ghost var received: seq<AudioReply>
    /** Of those, the ones handed to a player, in the order they were started. */
    ghost var started: seq<AudioReply>

    /** Replies start in the order they arrived, none skipped and none twice,
        and the current player plays the reply started last. */
    ghost predicate Valid()
      reads this
    {
      && received == started + audioQueue
      && (currentPlayer.Some? ==> started != [] && currentPlayer.value == started[|started| - 1])
    }

    constructor()
      ensures Valid()
      ensures audioQueue == [] && !isAiSpeaking && currentPlayer.None?
      ensures deleteRequests == [] && !userSpeaking && interruptsSent == 0
    {
      audioQueue := [];
      isAiSpeaking := false;
      currentPlayer := None;
      deleteRequests := [];
      userSpeaking := false;
      interruptsSent := 0;
      received := [];
      started := [];
    }

    /** `playFromQueue`: nothing while a reply is being spoken or when nothing is
        waiting; otherwise the oldest waiting reply is taken off the queue and
        given to a new player. */
    method PlayFromQueue()
      requires Valid()
      modifies this
      ensures Valid() && received == old(received)
      ensures old(isAiSpeaking) || old(audioQueue) == [] ==>
        audioQueue == old(audioQueue) && isAiSpeaking == old(isAiSpeaking)
        && currentPlayer == old(currentPlayer) && started == old(started)
      ensures !old(isAiSpeaking) && old(audioQueue) != [] ==>
        audioQueue == old(audioQueue)[1..] && isAiSpeaking
        && currentPlayer == Some(old(audioQueue)[0]) && started == old(started) + [old(audioQueue)[0]]
      ensures deleteRequests == old(deleteRequests) && userSpeaking == old(userSpeaking)
      ensures interruptsSent == old(interruptsSent)
    {
      if isAiSpeaking || |audioQueue| == 0 {
        return;
      }
      isAiSpeaking := true;
      var audioData := audioQueue[0];
      audioQueue := audioQueue[1..];
      started := started + [audioData];
      currentPlayer := Some(audioData);
    }

    /** `stopAndClearAudio`: the current player is dropped (its `ended` handler
        detached), the queue emptied and the flag cleared. */
    method StopAndClearAudio()
      requires Valid()
      modifies this
      ensures Valid()
      ensures audioQueue == [] && !isAiSpeaking && currentPlayer.None?
      ensures received == [] && started == []
      ensures deleteRequests == old(deleteRequests) && userSpeaking == old(userSpeaking)
      ensures interruptsSent == old(interruptsSent)
    {
      currentPlayer := None;
      audioQueue := [];
      isAiSpeaking := false;
      received := [];
      started := [];
    }

    /** An `audio` message: the reply joins the tail of the queue, then playback is tried. */
    method OnAudio(reply: AudioReply)
      requires Valid()
      modifies this
      ensures Valid() && received == old(received) + [reply]
      ensures old(isAiSpeaking) ==>
        audioQueue == old(audioQueue) + [reply] && isAiSpeaking && currentPlayer == old(currentPlayer)
      ensures !old(isAiSpeaking) ==>
        audioQueue == (old(audioQueue) + [reply])[1..] && isAiSpeaking
        && currentPlayer == Some((old(audioQueue) + [reply])[0])
      ensures deleteRequests == old(deleteRequests) && userSpeaking == old(userSpeaking)
      ensures interruptsSent == old(interruptsSent)
    {
      audioQueue := audioQueue + [reply];
      received := received + [reply];
      PlayFromQueue();
    }

    /** An `end_of_response` message: the flag is cleared, then playback is tried. */
    method OnEndOfResponse()
      requires Valid()
      modifies this
      ensures Valid() && received == old(received)
      ensures old(audioQueue) == [] ==> audioQueue == [] && !isAiSpeaking && currentPlayer == old(currentPlayer)
      ensures old(audioQueue) != [] ==>
        audioQueue == old(audioQueue)[1..] && isAiSpeaking && currentPlayer == Some(old(audioQueue)[0])
      ensures deleteRequests == old(deleteRequests) && userSpeaking == old(userSpeaking)
      ensures interruptsSent == old(interruptsSent)
    {
      isAiSpeaking := false;
      PlayFromQueue();
    }

    /** The `ended` event of the player created for `reply` (while its handler
        is attached): the flag is cleared, the file's deletion is requested and
        the next reply is tried. */
    method OnPlayerEnded(reply: AudioReply)
      requires Valid()
      modifies this
      ensures Valid() && received == old(received)
      ensures deleteRequests == old(deleteRequests) + [DeletedFileName(reply)]
      ensures old(audioQueue) == [] ==> audioQueue == [] && !isAiSpeaking && currentPlayer == old(currentPlayer)
      ensures old(audioQueue) != [] ==>
        audioQueue == old(audioQueue)[1..] && isAiSpeaking && currentPlayer == Some(old(audioQueue)[0])
      ensures userSpeaking == old(userSpeaking) && interruptsSent == old(interruptsSent)
    {
      isAiSpeaking := false;
      var filename := AfterLastSlash(reply.audioUrl);
      deleteRequests := deleteRequests + [filename];
      PlayFromQueue();
    }

    /** The `error` event of a player: like `ended`, without the deletion. */
    method OnPlayerError()
      requires Valid()
      modifies this
      ensures Valid() && received == old(received)
      ensures old(audioQueue) == [] ==> audioQueue == [] && !isAiSpeaking && currentPlayer == old(currentPlayer)
      ensures old(audioQueue) != [] ==>
        audioQueue == old(audioQueue)[1..] && isAiSpeaking && currentPlayer == Some(old(audioQueue)[0])
      ensures deleteRequests == old(deleteRequests)
      ensures userSpeaking == old(userSpeaking) && interruptsSent == old(interruptsSent)
    {
      isAiSpeaking := false;
      PlayFromQueue();
    }

    /** The browser refused to start a player: the flag is cleared and nothing
        else is tried until the next message or event. */
    method OnPlayRejected()
      requires Valid()
      modifies this
      ensures Valid() && !isAiSpeaking
      ensures audioQueue == old(audioQueue) && currentPlayer == old(currentPlayer)
      ensures received == old(received) && started == old(started)
      ensures deleteRequests == old(deleteRequests)
      ensures userSpeaking == old(userSpeaking) && interruptsSent == old(interruptsSent)
    {
      isAiSpeaking := false;
    }

    /** A microphone frame louder than the voice threshold: the first loud frame
        of an utterance interrupts a reply being spoken (clearing the queue and
        telling the server). Frames are handled only while the socket is open,
        so the interrupt is always sent. The 1 s timer that ends the utterance
        is OnSilenceTimeout. */
    method OnLoudFrame()
      requires Valid()
      modifies this
      ensures Valid() && userSpeaking
      ensures old(userSpeaking) || !old(isAiSpeaking) ==>
        audioQueue == old(audioQueue) && isAiSpeaking == old(isAiSpeaking)
        && currentPlayer == old(currentPlayer) && received == old(received) && interruptsSent == old(interruptsSent)
      ensures !old(userSpeaking) && old(isAiSpeaking) ==>
        audioQueue == [] && !isAiSpeaking && currentPlayer.None?
        && interruptsSent == old(interruptsSent) + 1
      ensures deleteRequests == old(deleteRequests)
    {
      if !userSpeaking {
        userSpeaking := true;
        if isAiSpeaking {
          StopAndClearAudio();
          interruptsSent := interruptsSent + 1;
        }
      }
    }

    method OnSilenceTimeout()
      requires Valid()
      modifies this
      ensures Valid() && !userSpeaking
      ensures audioQueue == old(audioQueue) && isAiSpeaking == old(isAiSpeaking) && currentPlayer == old(currentPlayer)
      ensures received == old(received) && started == old(started)
      ensures deleteRequests == old(deleteRequests) && interruptsSent == old(interruptsSent)
    {
      userSpeaking := false;
    }
  }

  /** `ws.onmessage`: a transcript drives the navigation, audio and
      end-of-response drive the reply queue, an error only shows a toast. */
  method HandleMessage(page: CookingPage, voice: VoiceSession, msg: ServerMessage,
                       today: LocalDate, isoDate: string, nowMs: int)
    requires ValidDate(today) && voice.Valid()
    modifies page, voice
    ensures voice.Valid()
    ensures msg.Transcript? ==> (page.CurrentProgress() ==
      match ClassifyTranscript(msg.text)
      case NextIntent => AfterNext(page.stepData, page.totalSteps, page.recipeTitle, old(page.CurrentProgress()), today, isoDate, nowMs)
      case PrevIntent => old(page.CurrentProgress()).(pos := PrevPos(page.stepData, old(page.CurrentProgress().pos)))
      case NoIntent => old(page.CurrentProgress()))
    ensures !msg.Transcript? ==> page.CurrentProgress() == old(page.CurrentProgress())
    ensures msg.Audio? ==> voice.received == old(voice.received) + [msg.reply]
    ensures msg.Audio? && old(voice.isAiSpeaking) ==>
      voice.audioQueue == old(voice.audioQueue) + [msg.reply] && voice.isAiSpeaking
      && voice.currentPlayer == old(voice.currentPlayer)
    ensures msg.Audio? && !old(voice.isAiSpeaking) ==>
      voice.audioQueue == (old(voice.audioQueue) + [msg.reply])[1..] && voice.isAiSpeaking
      && voice.currentPlayer == Some((old(voice.audioQueue) + [msg.reply])[0])
    ensures msg.Transcript? || msg.ServerError? || msg.Unknown? ==>
      voice.audioQueue == old(voice.audioQueue) && voice.isAiSpeaking == old(voice.isAiSpeaking)
      && voice.currentPlayer == old(voice.currentPlayer) && voice.received == old(voice.received)
    ensures msg.EndOfResponse? ==> voice.received == old(voice.received)
    ensures msg.EndOfResponse? && old(voice.audioQueue) == [] ==>
      voice.audioQueue == [] && !voice.isAiSpeaking && voice.currentPlayer == old(voice.currentPlayer)
    ensures msg.EndOfResponse? && old(voice.audioQueue) != [] ==>
      voice.audioQueue == old(voice.audioQueue)[1..] && voice.isAiSpeaking
      && voice.currentPlayer == Some(old(voice.audioQueue)[0])
    ensures voice.deleteRequests == old(voice.deleteRequests) && voice.userSpeaking == old(voice.userSpeaking)
    ensures voice.interruptsSent == old(voice.interruptsSent)
    ensures page.startY == old(page.startY) && page.currentY == old(page.currentY)
      && page.startTime == old(page.startTime) && page.isScrolling == old(page.isScrolling)
  {
    match msg
    case Transcript(text) =>
      page.ProcessUserTranscript(text, today, isoDate, nowMs);
    case Audio(reply) =>
      voice.OnAudio(reply);
    case EndOfResponse =>
      voice.OnEndOfResponse();
    case ServerError(_) =>
    case Unknown =>
  }
}
