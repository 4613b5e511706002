/** `processar_audio`: validate the input, resolve the labels, transcribe,
    optionally translate, and report; every failure becomes a result. */
module Pipeline {
  import opened Wrappers
  import opened Backend
  import opened Tables
  import opened ModelCache
  import opened Transcription
  import opened Translation

  /** The three strings shown to the user: transcript, translation, info. */
  datatype Output = Output(transcript: string, translation: string, info: string)

  /** The labels resolved to codes: Whisper model size, target language
      code, and the language forced on Whisper (None for auto-detect). */
  datatype Config = Config(model: string, target: string, forced: Option<string>)

  /** What the translation stage produced, and the calls it made. */
  datatype Assembled = Assembled(output: Output, calls: seq<Call>)

  /** A whole run: the output, the cache afterwards, and the calls made. */
  datatype Processed = Processed(output: Output, models: map<string, Handle>, calls: seq<Call>)

  const NoFile: Output := Output("\U{274C} Nenhum arquivo foi enviado.", "", "")
  const FailurePrefix: string := "\U{274C} Erro ao processar áudio: "
  const NotRequested: string := "\U{2705} Tradução não solicitada."
  const LanguageLine: string := "\U{1F310} Idioma detectado: "
  const ServiceLine: string := "\n\U{1F4DD} Serviço de tradução: "

  /** The two shapes a run can end in: a failure, whose translation and info
      are empty, or a report, whose info names the language. */
  predicate WellShaped(out: Output)
  {
    || (out.translation == [] && out.info == [] && (out == NoFile || FailurePrefix <= out.transcript))
    || LanguageLine <= out.info
  }

  /** The uniform result of any exception caught by `processar_audio`. */
  function Failed(message: string): (out: Output)
    ensures out.translation == [] && out.info == []
    ensures FailurePrefix <= out.transcript
    ensures out.transcript[|FailurePrefix|..] == message
  {
    Output(FailurePrefix + message, "", "")
  }

  /** `str(KeyError(key))`: the key between single quotes. */
  function KeyErrorMessage(key: string): (m: string)
  {
    "'" + key + "'"
  }

  /** `processar_audio`'s label lookups: the quality and target labels must be known (a KeyError
      otherwise); an unknown source label, like auto-detect, forces nothing. */
  function Resolve(quality: string, source: string, target: string): (r: Result<Config>)
    ensures r.Failure? <==> !HasKey(QualityToModel, quality) || !HasKey(TargetLanguages, target)
    ensures !HasKey(QualityToModel, quality) ==> r == Failure(KeyErrorMessage(quality))
    ensures HasKey(QualityToModel, quality) && !HasKey(TargetLanguages, target) ==>
      r == Failure(KeyErrorMessage(target))
    ensures r.Success? ==>
      && Get(QualityToModel, quality) == Some(r.value.model)
      && target != AutoLabel && Get(Languages, target) == Some(r.value.target)
      && r.value.target != Auto
    ensures r.Success? ==> (r.value.forced.None? <==> source == AutoLabel || !HasKey(Languages, source))
    ensures r.Success? && r.value.forced.Some? ==> Get(Languages, source) == r.value.forced
  {
    match Get(QualityToModel, quality)
    case None => Failure(KeyErrorMessage(quality))
    case Some(model) =>
      match Get(TargetLanguages, target)
      case None => Failure(KeyErrorMessage(target))
      case Some(code) =>
        TargetLanguagesExcludeAuto(target);
        AutoCodeOnlyForAutoLabel(source);
        var src := Get(Languages, source);
        Success(Config(model, code, if src == Some(Auto) then None else src))
  }

  /** The info line: the label of the detected language (or the code itself
      when no label has it), and the translation service when one was asked. */
  function Info(code: string, service: Option<string>): (info: string)
    ensures HasValue(Languages, code) ==>
      var name := LabelFor(Languages, code);
      LanguageLine + name <= info && Get(Languages, name) == Some(code)
    ensures !HasValue(Languages, code) ==> LanguageLine + code <= info
    ensures service.None? ==> info == LanguageLine + LabelFor(Languages, code)
    ensures service.Some? ==> info == LanguageLine + LabelFor(Languages, code) + ServiceLine + service.value
  {
    var name := LabelFor(Languages, code);
    ShownLabelHasCode(code);
    var head := LanguageLine + name;
    match service
    case Some(s) => head + ServiceLine + s
    case None => head
  }

  /** `processar_audio`'s translate branch and report, once the transcript is in hand. */
  function Assemble(o: Oracles, t: Transcript, cfg: Config, translate: bool): (a: Assembled)
    ensures WellShaped(a.output)
    // only the detector and the providers are called
    ensures forall i :: 0 <= i < |a.calls| ==> !a.calls[i].LoadModel? && !a.calls[i].RunModel?
    // no translation asked: nothing is called
    ensures !translate ==> a == Assembled(Output(t.text, NotRequested, Info(t.language, None)), [])
    // translation asked: the transcript is kept even when both providers failed
    ensures translate ==>
      var tr := Translate(o, t.text, cfg.target, Some(t.language));
      && a.calls == tr.calls
      && (tr.result.Success? ==>
            a.output == Output(t.text, tr.result.value.text, Info(t.language, Some(tr.result.value.service))))
      && (tr.result.Failure? ==> a.output == Failed(tr.result.error))
  {
    if translate then
      var tr := Translate(o, t.text, cfg.target, Some(t.language));
      match tr.result
      case Failure(e) => Assembled(Failed(e), tr.calls)
      case Success(x) => Assembled(Output(t.text, x.text, Info(t.language, Some(x.service))), tr.calls)
    else
      Assembled(Output(t.text, NotRequested, Info(t.language, None)), [])
  }

  /** `processar_audio(audio, quality, source, target, translate)` against the
      cache contents `models`. */
  function Process(o: Oracles, models: map<string, Handle>, audio: Option<string>,
                   quality: string, source: string, target: string, translate: bool): (r: Processed)
    ensures WellShaped(r.output)
    // no audio: a fixed message, and nothing is loaded or called
    ensures audio.None? ==> r == Processed(NoFile, models, [])
    // an unknown quality or target label: the KeyError, and nothing is loaded or called
    ensures audio.Some? && Resolve(quality, source, target).Failure? ==>
      r == Processed(Failed(Resolve(quality, source, target).error), models, [])
    // otherwise the transcription decides the cache, and its failure ends the run
    ensures audio.Some? && Resolve(quality, source, target).Success? ==>
      var cfg := Resolve(quality, source, target).value;
      var t := Transcribe(o, models, audio.value, cfg.model, cfg.forced);
      && r.models == t.models
      && (t.result.Failure? ==> r.output == Failed(t.result.error) && r.calls == t.calls)
      && (t.result.Success? ==>
            var a := Assemble(o, t.result.value, cfg, translate);
            r.output == a.output && r.calls == t.calls + a.calls)
  {
    if audio.None? then Processed(NoFile, models, [])
    else
      match Resolve(quality, source, target)
      case Failure(e) => Processed(Failed(e), models, [])
      case Success(cfg) =>
        var t := Transcribe(o, models, audio.value, cfg.model, cfg.forced);
        match t.result
        case Failure(e) => Processed(Failed(e), t.models, t.calls)
        case Success(transcript) =>
          var a := Assemble(o, transcript, cfg, translate);
          Processed(a.output, t.models, t.calls + a.calls)
  }

  /** A source label missing from the table behaves exactly like auto-detect. */
  lemma UnknownSourceIsAutoDetect(o: Oracles, models: map<string, Handle>, audio: Option<string>,
                                  quality: string, source: string, target: string, translate: bool)
    requires !HasKey(Languages, source)
    ensures Process(o, models, audio, quality, source, target, translate)
         == Process(o, models, audio, quality, AutoLabel, target, translate)
  {
  }

  /** A run loads at most one model, first, and only one that was not cached. */
  lemma AtMostOneLoad(o: Oracles, models: map<string, Handle>, audio: Option<string>,
                      quality: string, source: string, target: string, translate: bool)
    ensures var r := Process(o, models, audio, quality, source, target, translate);
      forall i :: 0 <= i < |r.calls| && r.calls[i].LoadModel? ==> i == 0 && r.calls[i].model !in models
  {
    var r := Process(o, models, audio, quality, source, target, translate);
    if audio.Some? && Resolve(quality, source, target).Success? {
      var cfg := Resolve(quality, source, target).value;
      var t := Transcribe(o, models, audio.value, cfg.model, cfg.forced);
      if t.result.Success? {
        var a := Assemble(o, t.result.value, cfg, translate);
        assert r.calls == t.calls + a.calls;
        forall i | 0 <= i < |r.calls| && r.calls[i].LoadModel?
          ensures i == 0 && r.calls[i].model !in models
        {
          assert i < |t.calls| ==> r.calls[i] == t.calls[i];
        }
      }
    }
  }

  /** A failing translation still delivers the transcript. */
  lemma TranslationFailureKeepsTranscript(o: Oracles, t: Transcript, cfg: Config)
    requires !Text.IsBlank(t.text) && t.language != [] && t.language != cfg.target
    requires o.google(t.text, t.language, cfg.target).Failure?
    requires o.myMemory(t.text, t.language, cfg.target).Failure?
    ensures Assemble(o, t, cfg, true).output == Output(
      t.text,
      ErrorPrefix + o.google(t.text, t.language, cfg.target).error,
      Info(t.language, Some(ErrorService)))
  {
  }

  /** `processar_audio` on the cache object. */
  method ProcessAudio(cache: Cache, o: Oracles, audio: Option<string>,
                      quality: string, source: string, target: string, translate: bool)
    returns (out: Output)
    requires cache.Valid()
    modifies cache
    ensures cache.Valid()
    ensures var spec := Process(o, old(cache.models), audio, quality, source, target, translate);
      && out == spec.output
      && cache.models == spec.models
      && cache.loads == Tally(old(cache.loads), spec.calls)
  {
    if audio.None? {
      return NoFile;
    }
    match Resolve(quality, source, target)
    case Failure(e) =>
      out := Failed(e);
    case Success(cfg) =>
      ghost var before := cache.loads;
      ghost var spec := Transcribe(o, cache.models, audio.value, cfg.model, cfg.forced);
      var t := TranscribeAudio(cache, o, audio.value, cfg.model, cfg.forced);
      match t
      case Failure(e) =>
        out := Failed(e);
      case Success(transcript) =>
        var a := Assemble(o, transcript, cfg, translate);
        out := a.output;
        TallyAppend(before, spec.calls, a.calls);
        TallyWithoutLoads(cache.loads, a.calls);
  }
}
