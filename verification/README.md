# Audio transcription and translation pipeline — a Dafny model

This project models the processing core of a small web application that
transcribes an uploaded audio file with Whisper and translates the
transcript (`app.py`). It covers:

- the module-level cache of loaded Whisper models (`_modelos_cache`,
  `carregar_modelo_whisper`), as a class `ModelCache.Cache` whose `models`
  map is updated in place, with ghost counters of loader runs and of stored
  handles per model name;
- the transcription step (`transcrever_audio`): the options handed to
  Whisper, and the tidying of its answer (Python's `str.strip` and the
  `"desconhecido"` default);
- the translation policy (`traduzir_texto`): blank text, language
  detection, same-language short cut, Google Translate first, MyMemory
  second, Google's error when both fail — checked against an independent
  ordered-fallback combinator (`Translation.Fallback`);
- the orchestrator (`processar_audio`) and its label tables
  (`QUALIDADE_PARA_MODELO`, `IDIOMAS`, `IDIOMAS_DESTINO`), including the
  reverse code-to-label lookup and the catch-all that turns every failure
  into a fixed three-string result.

Whisper's loader and transcriber, `langdetect.detect` and the two
translators are oracles: fields of `Backend.Oracles`, functions that
return `Success(value)` or `Failure(message)`; a raised Python exception is
a `Failure` carrying `str(e)`. Every modelled operation also returns the
list of oracle calls it made (`Backend.Call`), so "no provider is called"
and "the model is loaded once" are statements about that list.

The module-level dict appears twice: as the object `ModelCache.Cache`,
updated in place by `Cache.Load`, `TranscribeAudio` and `ProcessAudio`; and,
for the specification functions (`LoadStep`, `Transcribe`, `Process`), as a
`map` value passed in and returned. Each method is proved to produce the
result and the new cache contents of its specification function.

A failing `detect` inside `traduzir_texto` is not caught there: it
escapes to the catch-all of `processar_audio` and ends the whole run with
the failure result, so in that one case a translation problem does lose the
transcript. It is reached when Whisper reports a falsy language (in the
model, an empty one). `traduzir_texto` may also call `detect` before it
compares languages. `Translation.Translate` and `Pipeline.Assemble` model
both.

Files: `wrappers.dfy` (Option, Result), `text.dfy` (Python whitespace and
`strip`), `tables.dfy` (label tables and lookups), `backend.dfy` (oracles,
call trace, load tally), `model_cache.dfy`, `transcription.dfy`,
`translation.dfy`, `pipeline.dfy`.

## Model

| member | source | states |
|---|---|---|
| Text.Strip | app.py:73 | `s.strip()` is a contiguous piece of `s` with only whitespace before and after it, neither starts nor ends with whitespace, and is empty exactly when `s` is empty or all whitespace |
| Text.StripRemovesPadding | app.py:73 | for any whitespace `p`, `q` and trimmed `core`, `(p + core + q).strip() == core`: this pins `strip` down completely |
| Text.StripIdempotent | app.py:73 | stripping an already stripped text changes nothing |
| Tables.Get | app.py:114-118 | a dict lookup finds an entry with that key, and fails (KeyError / `None` from `.get`) exactly when no entry has the key |
| Tables.Without | app.py:45 | the dict comprehension keeps exactly the entries whose key differs from the excluded one, and a table without repeated keys stays so |
| Tables.GetWithout | app.py:45 | after dropping one key, looking it up fails and every other lookup is unchanged |
| Tables.TargetLanguagesExcludeAuto | app.py:45 | `IDIOMAS_DESTINO[l]` is `IDIOMAS[l]` for every label but auto-detect, which is missing; no destination code is `"auto"` |
| Tables.TablesAreBijective | app.py:21-43 | both tables have distinct labels and distinct codes |
| Tables.AutoCodeOnlyForAutoLabel | app.py:118-122 | a source label resolves to `"auto"` exactly when it is the auto-detect label |
| Tables.LabelFor | app.py:140 | the reverse lookup returns the first label whose code matches, and the code itself when no label has it |
| Tables.LabelForCode | app.py:140 | in a table with distinct codes, the reverse lookup of a label's code is that label |
| Tables.CodeOfLabelFor | app.py:140 | in a table with distinct labels, the label found for a known code has that code |
| Tables.ShownLabelHasCode | app.py:140 | for `IDIOMAS`, the label shown for a known code maps back to that code |
| ModelCache.LoadStep | app.py:51-57 | a cached model is returned as stored with no load; an absent one is loaded once, and the answer is the loader's own (the handle it built, or its error message); on success it is cached and the stored handle is returned; a failed load leaves the cache as it was; no other entry is added, removed or replaced |
| ModelCache.SecondRequestIsCached | app.py:51-57 | asking again for a model that loaded returns the same handle, with no load and no change to the cache |
| ModelCache.Cache.constructor | app.py:48 | the cache starts empty, with no loads |
| ModelCache.Cache.Load | app.py:51-57 | the object update agrees with LoadStep; the loader runs (its count goes up by one) only for an absent model; a cached model is returned with cache and counts unchanged; every cached name has had exactly one handle stored |
| Transcription.OptionsFor | app.py:64-70 | `fp16` and `verbose` are always false; `language` is present, equal to the requested code, exactly when that code is non-empty and not `"auto"` |
| Transcription.Tidy | app.py:73 | the text is Whisper's text stripped (empty exactly when Whisper's is blank); the language is Whisper's, or `"desconhecido"` when it gave none |
| Transcription.Recognise | app.py:64-73 | Whisper runs with OptionsFor's options; its failure is passed on, its success is tidied |
| Transcription.Transcribe | app.py:60-73 | the cache changes only by the load of the requested model; at most one load, made first and only when the model was not cached; a failed load ends the run before transcription; otherwise one transcription with the loaded or cached handle |
| Transcription.TranscribeAudio | app.py:60-73 | on the cache object, gives Transcribe's result, cache contents and load counts, and keeps the cache invariant |
| Translation.Fallback | app.py:89-97 | reference policy: some provider serves exactly when one succeeds, and then it is the first success after only failures; when all fail the error reported is the first provider's |
| Translation.Tried | app.py:89-97 | the providers called are those up to and including the first that succeeds, in order |
| Translation.Providers | app.py:89-95 | Google Translate is tried first and MyMemory second, each called with the same text, source and target and answering with its own oracle's outcome |
| Translation.Consult | app.py:89-97 | the try/except cascade calls only the two providers, makes exactly the calls of Tried, and answers as Fallback decides, an exhausted fallback giving `"❌ Erro ao traduzir: "` + Google's message with `"erro"` |
| Translation.Translate | app.py:76-97 | blank text is returned with `"nenhum"` and nothing called; `detect` is called first and only when no source was given, and its failure escapes; same source and target return the text with `"nenhum (mesma lingua)"` and no provider call; otherwise the outcome and the calls are those of Fallback over Google then MyMemory, an exhausted fallback giving `"❌ Erro ao traduzir: "` + Google's message with `"erro"` |
| Translation.DetectOnlyWithoutSource | app.py:78-83 | `detect` is called exactly when the text is not blank and no source language was given |
| Translation.GoogleServesFirst | app.py:89-91 | when Google succeeds its text is returned with `"Google Translate"`, and MyMemory is never called |
| Translation.MyMemoryServesSecond | app.py:92-95 | when Google fails and MyMemory succeeds, MyMemory's text is returned with `"MyMemory"` |
| Translation.BothFailReportGoogle | app.py:96-97 | when both fail the result carries Google's message, not MyMemory's |
| Pipeline.Failed | app.py:149-150 | every caught failure gives `"❌ Erro ao processar áudio: "` followed by exactly the exception's text, with empty translation and info |
| Pipeline.Resolve | app.py:113-122 | an unknown quality label fails with its KeyError, then an unknown destination label with its KeyError; otherwise the model and target code are the table entries, the target is never `"auto"`, and no language is forced exactly when the source label is auto-detect or unknown |
| Pipeline.Info | app.py:140-145 | the info line names the label of the detected code, or the code itself when no label has it; the service line is present exactly when a service is given |
| Pipeline.Assemble | app.py:131-147 | without translation nothing is called and the translation field is `"✅ Tradução não solicitada."`; with translation the transcript is kept whatever the providers did, and only an escaping `detect` failure turns the run into a failure |
| Pipeline.Process | app.py:100-150 | no audio gives the fixed message with no load or call; a bad label gives the KeyError result with no load or call; a load or transcription failure gives the failure result; otherwise the transcription and Assemble decide the result; every result is one of the two fixed shapes |
| Pipeline.UnknownSourceIsAutoDetect | app.py:118-122 | a source label missing from `IDIOMAS` behaves exactly like auto-detect |
| Pipeline.AtMostOneLoad | app.py:53-55 | a whole run loads at most one model, as its first call, and only one that was not cached |
| Pipeline.TranslationFailureKeepsTranscript | app.py:132-141 | when both providers fail the run still returns the transcript, with the Google error as translation and `"erro"` as service |
| Pipeline.ProcessAudio | app.py:100-150 | on the cache object, gives Process's output, cache contents and load counts, and keeps the cache invariant |

## Left out

- The Gradio interface (`criar_interface`) and the launch block: presentation only.
- Whisper's model loading and inference, `langdetect.detect`, and the Google and MyMemory network calls: they are oracles. An oracle's answer depends only on its arguments, so two calls with the same arguments cannot answer differently.
- `print` logging and `warnings.filterwarnings`: side effects with no bearing on results.
- Concurrency: the cache is used sequentially. The code has no locking, so two simultaneous first requests for one model could both load it; the model does not capture that.
- No eviction: the cache only grows, as in the code.
- Pipeline.KeyErrorMessage: `str(KeyError(k))` is `repr(k)`, modelled as the key between single quotes; Python's choice of double quotes and its escaping for keys holding quotes, backslashes or unprintable characters are not modelled.
- Whisper's result is modelled with a string "text" and an optional string "language"; a missing "text" key (a KeyError) or a "language" key present with the value `None` is not modelled (in the code such a `None` is falsy and also leads `traduzir_texto` to call `detect`).
- A translator that returns something other than a string (for example `None`) is not modelled.
- The audio argument is a file path (`Some(path)`) or `None`; nothing about the file itself is modelled.
- That a forced language is echoed back by Whisper is a property of Whisper, not of this code; the model reports whatever language Whisper returns.
