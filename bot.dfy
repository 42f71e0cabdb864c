/** The bot around the pipeline (weather.py, `get_weather` as a message
    handler and `main`). Telegram itself is outside the model: a handler run
    is described by the messages it sends and the exception that escapes it,
    and start-up by whether it halts and what it sends before polling. */
module Bot {
  import opened Wrappers
  import opened Credentials
  import opened Lines
  import opened Weather
  import Compass

  /** One message sent through the Bot API. Chat identifiers are opaque text. */
  datatype Message = Message(chat: string, text: string)

  const Greeting: string := "Привет! Введи город - будет погода:)"
  const HaltReason: string := "Программа принудительно остановлена"

  /** The effect of handling one incoming text: what was sent, and the
      exception that escaped to the dispatcher, if any. */
  datatype Handled = Handled(sent: seq<Message>, raised: Option<WeatherError>)

  /** `get_weather` on one incoming message: `text` is the city the user
      typed, `data` the decoded provider response for it, `timestamp` the
      clock reading. The reply goes to the originating chat; an exception
      ends the handler before anything is sent. */
  function HandleText(chat: string, text: string, data: Payload, timestamp: string): (h: Handled)
    ensures |h.sent| <= 1
    ensures h.raised.Some? <==> h.sent == []
    ensures h.raised.Some? <==> NotFound(data) || !Complete(data)
    ensures NotFound(data) ==> h.raised == Some(CityNotFound("Город " + text + " не нейден."))
    ensures forall k :: 0 <= k < |h.sent| ==> h.sent[k].chat == chat
  {
    match GetWeather(text, data, timestamp)
    case Success(report) => Handled([Message(chat, report)], None)
    case Failure(e) => Handled([], Some(e))
  }

  /** A non-404 payload with a missing key is answered by no message, and the
      exception that escapes is that of the first lookup to fail. */
  lemma HandleTextRaisesFirstMissing(chat: string, text: string, data: Payload, timestamp: string)
    requires !NotFound(data) && !Complete(data)
    ensures FirstMissing(data, 0) < |Lookups|
    ensures var h := HandleText(chat, text, data, timestamp);
      h.sent == [] && h.raised == Some(ErrorOf(Lookups[FirstMissing(data, 0)]))
  {
    ExtractFailsAtFirstMissing(data);
  }

  /** The text members of the payload hold no line breaks. */
  predicate SingleLinePayload(data: Payload) {
    && (data.name.Some? ==> NoNewline(data.name.value))
    && (Has(data, Description) ==> NoNewline(data.weather.value[0].description.value))
    && (data.main.Some? && data.main.value.temp.Some? ==> NoNewline(data.main.value.temp.value))
    && (data.wind.Some? && data.wind.value.speed.Some? ==> NoNewline(data.wind.value.speed.value))
  }

  lemma PointsSingleLine()
    ensures forall k :: 0 <= k < |Compass.Points| ==> NoNewline(Compass.Points[k])
  {
  }

  /** A payload that is not a 404 and has every key gets exactly one reply,
      to the originating chat, whose seven lines are the template's in order:
      timestamp, city, range and description, temperature, humidity,
      pressure, wind. */
  lemma ReplyIsSevenLines(chat: string, text: string, data: Payload, timestamp: string)
    requires !NotFound(data) && Complete(data)
    requires NoNewline(timestamp) && SingleLinePayload(data)
    ensures var h := HandleText(chat, text, data, timestamp);
      && h.raised.None? && |h.sent| == 1 && h.sent[0].chat == chat
      && var lines := SplitLines(h.sent[0].text);
      && lines == ReportLines(timestamp, Extract(data).value)
      && |lines| == 7 && lines[0] == timestamp && lines[1] == data.name.value
  {
    var f := Extract(data).value;
    PointsSingleLine();
    var i :| 0 <= i < |Compass.Points| && Compass.Points[i] == f.breeze.direction;
    assert SingleLineFields(timestamp, f);
    GetWeatherReport(text, data, timestamp);
  }

  /** What `main` does before it starts polling. */
  datatype Startup = Halted(reason: string) | Polling(botToken: string)

  /** `main`: the credential check gates everything. When it fails the
      process exits with HaltReason before a bot exists or a message is
      sent; otherwise the bot, built from TELEGRAM_TOKEN, greets
      TELEGRAM_CHAT_ID once and then polls. */
  method Start(env: Env) returns (s: Startup, sent: seq<Message>, ghost logged: seq<string>)
    ensures s.Halted? <==> !AllPresent(env)
    ensures s.Halted? ==> s.reason == HaltReason && sent == []
    ensures s.Polling? ==> Present(env, "TELEGRAM_TOKEN") && Present(env, "TELEGRAM_CHAT_ID")
    ensures s.Polling? ==>
      s.botToken == env["TELEGRAM_TOKEN"] && sent == [Message(env["TELEGRAM_CHAT_ID"], Greeting)]
    ensures logged == Missing(env, TokenNames)
  {
    var ok;
    ok, logged := CheckTokens(env);
    if !ok {
      s, sent := Halted(HaltReason), [];
      return;
    }
    assert Present(env, TokenNames[1]) && Present(env, TokenNames[2]);
    s := Polling(env["TELEGRAM_TOKEN"]);
    sent := [Message(env["TELEGRAM_CHAT_ID"], Greeting)];
  }
}
