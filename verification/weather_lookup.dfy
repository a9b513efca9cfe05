/** `get_weather_forecast` (handlers/weather_module.py:54-88) with the HTTP
    call replaced by its outcome, given as a parameter: dispatch on the
    status code, aggregation and formatting on success, and the error texts
    otherwise. */
module WeatherLookup {
  import opened Wrappers
  import opened Texts
  import opened Aggregation
  import opened Formatting

  /** How the handler treats a response status. */
  datatype StatusKind = Success | AuthFailure | NotFound | ApiFailure

  /** The status dispatch: 200 proceeds, 401 and 404 have their own texts,
      every other code is a generic provider failure. */
  function Classify(status: int): (k: StatusKind)
    ensures k == Success <==> status == 200
    ensures k == AuthFailure <==> status == 401
    ensures k == NotFound <==> status == 404
    ensures k == ApiFailure <==> status != 200 && status != 401 && status != 404
  {
    if status != 200 then
      if status == 401 then AuthFailure
      else if status == 404 then NotFound
      else ApiFailure
    else
      Success
  }

  /** The body of a 200 response: the samples of its `list`; a body that is
      not JSON, whose decoding error `requests` raises as a subclass of
      `RequestException`; or JSON whose samples cannot be read (a missing
      key, a wrong type), with the text of the exception raised. */
  datatype Payload<D> =
    | Samples(samples: seq<Sample<D>>)
    | Undecodable(error: string)
    | Unreadable(error: string)

  /** What the HTTP call produced: a transport exception with its text, or
      a response. */
  datatype Fetch<D> = TransportFailure(error: string) | Received(status: int, payload: Payload<D>)

  /** A reply: a plain message, or a formatted forecast. */
  datatype Reply<D> = Message(text: string) | Forecast(report: Report<D>)

  /** The handler either returns a reply or lets a `KeyError` escape: with a
      language code that is not a key of ERROR_TEXTS, even the exception
      handler's own lookup fails. */
  datatype Outcome<D> = Replied(reply: Reply<D>) | KeyErrorRaised

  /** The handler: it raises exactly for an unknown language code, and only
      a 200 response whose samples were read gets a forecast. */
  function GetWeatherForecast<D(==)>(fetch: Fetch<D>, city: string, code: string): (r: Outcome<D>)
    ensures r.KeyErrorRaised? <==> LangFromCode(code).None?
    ensures r.Replied? && r.reply.Forecast? ==>
      fetch.Received? && fetch.status == 200 && fetch.payload.Samples?
  {
    match LangFromCode(code)
    case None => KeyErrorRaised
    case Some(lang) =>
      var texts := ErrorTexts(lang);
      match fetch
      case TransportFailure(err) => Replied(Message(Fill(texts.network, err)))
      case Received(status, payload) =>
        match Classify(status)
        case AuthFailure => Replied(Message(texts.auth.text))
        case NotFound => Replied(Message(Fill(texts.notFound, city)))
        case ApiFailure => Replied(Message(texts.api.text))
        case Success =>
          match payload
          case Undecodable(err) => Replied(Message(Fill(texts.network, err)))
          case Unreadable(err) => Replied(Message(Fill(texts.unexpected, err)))
          case Samples(samples) =>
            var f := Aggregate(samples);
            AggregateValid(samples);
            Replied(Forecast(FormatForecast(f, city, lang)))
  }

  /** The handler raises exactly when the language code is unknown; for
      "uk" and "en" it always returns a reply. */
  lemma RaisesOnlyForUnknownLanguage<D>(fetch: Fetch<D>, city: string, code: string)
    ensures GetWeatherForecast(fetch, city, code).KeyErrorRaised? <==> code != "uk" && code != "en"
  {
  }

  /** Only a 200 response whose samples can be read reaches aggregation,
      and then the reply is the formatted aggregate. */
  lemma OnlySuccessAggregates<D>(fetch: Fetch<D>, city: string, lang: Lang)
    ensures var r := GetWeatherForecast(fetch, city, Code(lang));
      (r.Replied? && r.reply.Forecast?) <==>
        (fetch.Received? && fetch.status == 200 && fetch.payload.Samples?)
    ensures fetch.Received? && fetch.status == 200 && fetch.payload.Samples? ==>
      Listed(Aggregate(fetch.payload.samples)) &&
      GetWeatherForecast(fetch, city, Code(lang))
        == Replied(Forecast(FormatForecast(Aggregate(fetch.payload.samples), city, lang)))
  {
    LangFromCodeOfCode(lang);
    if fetch.Received? && fetch.payload.Samples? {
      AggregateValid(fetch.payload.samples);
    }
  }

  /** 401: the fixed authentication text, whatever the city. */
  lemma AuthFailureText<D>(payload: Payload<D>, city: string, lang: Lang)
    ensures GetWeatherForecast(Received(401, payload), city, Code(lang))
         == Replied(Message(ErrorTexts(lang).auth.text))
  {
    LangFromCodeOfCode(lang);
  }

  /** 404: the not-found text, with the city recoverable verbatim from it. */
  lemma NotFoundNamesCity<D>(payload: Payload<D>, city: string, lang: Lang)
    ensures var r := GetWeatherForecast(Received(404, payload), city, Code(lang));
      && r.Replied? && r.reply.Message?
      && Unfill(ErrorTexts(lang).notFound, r.reply.text) == Some(city)
  {
    LangFromCodeOfCode(lang);
    UnfillFill(ErrorTexts(lang).notFound, city);
  }

  /** Every other non-200 status: the fixed generic provider text. */
  lemma ApiFailureText<D>(status: int, payload: Payload<D>, city: string, lang: Lang)
    requires status != 200 && status != 401 && status != 404
    ensures GetWeatherForecast(Received(status, payload), city, Code(lang))
         == Replied(Message(ErrorTexts(lang).api.text))
  {
    LangFromCodeOfCode(lang);
  }

  /** A transport failure: the network text, with the error description
      recoverable verbatim from it. */
  lemma TransportFailureText<D>(err: string, city: string, lang: Lang)
    ensures var r := GetWeatherForecast(Fetch<D>.TransportFailure(err), city, Code(lang));
      && r.Replied? && r.reply.Message?
      && Unfill(ErrorTexts(lang).network, r.reply.text) == Some(err)
  {
    LangFromCodeOfCode(lang);
    UnfillFill(ErrorTexts(lang).network, err);
  }

  /** A 200 response whose body is not JSON is answered with the network
      text, since its decoding error is caught as a `RequestException`; the
      error description is recoverable verbatim. */
  lemma UndecodableBodyText<D>(err: string, city: string, lang: Lang)
    ensures var r := GetWeatherForecast(Received(200, Payload<D>.Undecodable(err)), city, Code(lang));
      && r.Replied? && r.reply.Message?
      && Unfill(ErrorTexts(lang).network, r.reply.text) == Some(err)
  {
    LangFromCodeOfCode(lang);
    UnfillFill(ErrorTexts(lang).network, err);
  }

  /** JSON whose samples cannot be read is answered with the `unexpected`
      text carrying the exception's description. */
  lemma UnreadableSamplesText<D>(err: string, city: string, lang: Lang)
    ensures var r := GetWeatherForecast(Received(200, Payload<D>.Unreadable(err)), city, Code(lang));
      && r.Replied? && r.reply.Message?
      && Unfill(ErrorTexts(lang).unexpected, r.reply.text) == Some(err)
  {
    LangFromCodeOfCode(lang);
    UnfillFill(ErrorTexts(lang).unexpected, err);
  }
}
