/** `transcrever_audio`: fetch the model from the cache, build the options,
    run Whisper, and tidy its answer. */
module Transcription {
  import opened Wrappers
  import opened Backend
  import Text
  import Tables
  import opened ModelCache

  /** The transcript and the language Whisper reports. */
  datatype Transcript = Transcript(text: string, language: string)

  /** A transcription run: its outcome, the cache afterwards, the calls made. */
  datatype Transcribed = Transcribed(result: Result<Transcript>, models: map<string, Handle>, calls: seq<Call>)

  /** The language reported when Whisper's result has none. */
  const Unknown: string := "desconhecido"

  /** Python truthiness of an optional string: neither None nor "". */
  predicate Truthy(s: Option<string>)
  {
    s.Some? && s.value != []
  }

  /** The options dict: half precision and verbosity off, and a language
      only when a concrete one is asked for. */
  function OptionsFor(language: Option<string>): (opts: Options)
    ensures !opts.fp16 && !opts.verbose
    ensures opts.language.Some? <==> Truthy(language) && language.value != Tables.Auto
    ensures opts.language.Some? ==> opts.language == language
  {
    var opts := Options(fp16 := false, verbose := false, language := None);
    if Truthy(language) && language.value != Tables.Auto then opts.(language := language) else opts
  }

  /** `resultado["text"].strip(), resultado.get("language", "desconhecido")` */
  function Tidy(raw: Raw): (t: Transcript)
    ensures t.text == Text.Strip(raw.text) && Text.IsTrimmed(t.text)
    ensures t.text == [] <==> Text.IsBlank(raw.text)
    ensures raw.language.Some? ==> t.language == raw.language.value
    ensures raw.language.None? ==> t.language == Unknown
  {
    Transcript(Text.Strip(raw.text), match raw.language case Some(l) => l case None => Unknown)
  }

  /** Everything after the model is in hand: run it with the options and tidy
      the result; a failure of the model is passed on. */
  function Recognise(o: Oracles, h: Handle, audio: string, language: Option<string>): (r: Result<Transcript>)
    ensures var raw := o.transcribe(h, audio, OptionsFor(language));
      && (raw.Success? ==> r == Success(Tidy(raw.value)))
      && (raw.Failure? ==> r == Failure(raw.error))
  {
    match o.transcribe(h, audio, OptionsFor(language))
    case Success(raw) => Success(Tidy(raw))
    case Failure(e) => Failure(e)
  }

  /** `transcrever_audio(audio, model, language)` against the cache contents `models`. */
  function Transcribe(o: Oracles, models: map<string, Handle>, audio: string, model: string, language: Option<string>): (r: Transcribed)
    // at most one load, made first, and only of a model that was not cached
    ensures forall i :: 0 <= i < |r.calls| && r.calls[i].LoadModel? ==> i == 0 && r.calls[i].model !in models
    // the cache changes only by the load of `model`
    ensures r.models == LoadStep(o, models, model).models
    // a failed load ends the run before Whisper is asked to transcribe
    ensures LoadStep(o, models, model).result.Failure? ==>
      r == Transcribed(Failure(LoadStep(o, models, model).result.error), models, [LoadModel(model)])
    // otherwise the loaded or cached handle transcribes, once
    ensures var l := LoadStep(o, models, model);
      l.result.Success? ==>
        && r.result == Recognise(o, l.result.value, audio, language)
        && r.calls == l.calls + [RunModel(l.result.value, audio, OptionsFor(language))]
  {
    var l := LoadStep(o, models, model);
    match l.result
    case Failure(e) => Transcribed(Failure(e), l.models, l.calls)
    case Success(h) =>
      Transcribed(Recognise(o, h, audio, language), l.models, l.calls + [RunModel(h, audio, OptionsFor(language))])
  }

  /** `transcrever_audio` on the cache object. */
  method TranscribeAudio(cache: Cache, o: Oracles, audio: string, model: string, language: Option<string>)
    returns (r: Result<Transcript>)
    requires cache.Valid()
    modifies cache
    ensures cache.Valid()
    ensures var spec := Transcribe(o, old(cache.models), audio, model, language);
      && r == spec.result
      && cache.models == spec.models
      && cache.loads == Tally(old(cache.loads), spec.calls)
  {
    ghost var before := cache.loads;
    ghost var l := LoadStep(o, cache.models, model);
    var loaded := cache.Load(o, model);
    match loaded
    case Failure(e) =>
      r := Failure(e);
    case Success(h) =>
      r := Recognise(o, h, audio, language);
      var call := RunModel(h, audio, OptionsFor(language));
      TallyAppend(before, l.calls, [call]);
      TallyWithoutLoads(cache.loads, [call]);
  }
}
