/** The single-file program's event callback (`handleMessages` in main.go):
    a type switch on the event followed by the same download, transcribe and
    reply chain as the bot package. Its transcription helper is a different
    function (another Whisper model), so it is passed in separately. */
module LegacyMain {
  import opened Wrappers
  import Bot

  function HandleMessages(evt: Bot.Event, apiKey: string, download: Bot.Downloader, transcribe: Bot.Transcriber): (o: Bot.Outcome)
    ensures !(evt.MessageEvt? && evt.v.message.audio.Some?) <==> o == Bot.Ignored
    ensures o.Replied? ==> o.reply.to == evt.v.info.sender
  {
    match evt
    case MessageEvt(v) =>
      if v.message.audio.Some? then
        match download(v.message.audio.value)
        case Failure(err) => Bot.DownloadFailed(err)
        case Success(audioData) =>
          match transcribe(audioData, apiKey)
          case Failure(err) => Bot.TranscriptionFailed(err)
          case Success(transcript) =>
            var quotedInfo := Bot.ContextInfo(v.message, v.info.sender.rendered, v.info.id);
            Bot.Replied(Bot.Reply(v.info.sender, Bot.ExtendedTextMessage(Bot.ReplyText(transcript), quotedInfo)))
      else Bot.Ignored
    case _ => Bot.Ignored
  }

  /** Given the same collaborators, the callback does for a message event
      exactly what the bot package's handleMessages does, and nothing for any
      other event (a disconnect included). */
  lemma AgreesWithBot(evt: Bot.Event, apiKey: string, download: Bot.Downloader, transcribe: Bot.Transcriber)
    ensures HandleMessages(evt, apiKey, download, transcribe) ==
      if evt.MessageEvt? then Bot.HandleMessages(evt.v, apiKey, download, transcribe) else Bot.Ignored
  {
  }
}
