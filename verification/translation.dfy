/** `traduzir_texto`: translate a transcript, trying Google Translate first
    and MyMemory second. */
module Translation {
  import opened Wrappers
  import opened Backend
  import Text
  import opened Transcription

  /** The translated text and the name of the service that produced it. */
  datatype Rendered = Rendered(text: string, service: string)

  /** A translation run: its outcome and the calls made. A `Failure` is an
      exception that `traduzir_texto` does not catch (from `detect`). */
  datatype Translated = Translated(result: Result<Rendered>, calls: seq<Call>)

  const NoService: string := "nenhum"
  const SameLanguage: string := "nenhum (mesma lingua)"
  const GoogleService: string := "Google Translate"
  const MyMemoryService: string := "MyMemory"
  const ErrorService: string := "erro"
  const ErrorPrefix: string := "\U{274C} Erro ao traduzir: "

  /** One provider in an ordered fallback: its name, the call it makes and
      what that call returns. */
  datatype Attempt = Attempt(service: string, call: Call, outcome: Result<string>)

  /** The verdict of a fallback: a provider served, or all failed. */
  datatype Verdict = Served(text: string, service: string) | Exhausted(firstError: string)

  /** Reference policy: providers are tried in order, the first success
      serves, and when every provider fails the first failure is reported. */
  function Fallback(attempts: seq<Attempt>): (v: Verdict)
    requires attempts != []
    ensures v.Served? <==> exists i :: 0 <= i < |attempts| && attempts[i].outcome.Success?
    ensures v.Served? ==>
      exists i :: && 0 <= i < |attempts|
                  && attempts[i].service == v.service && attempts[i].outcome == Success(v.text)
                  && forall j :: 0 <= j < i ==> attempts[j].outcome.Failure?
    ensures v.Exhausted? ==> v.firstError == attempts[0].outcome.error
  {
    var a := attempts[0];
    if a.outcome.Success? then Served(a.outcome.value, a.service)
    else if |attempts| == 1 then Exhausted(a.outcome.error)
    else
      var rest := Fallback(attempts[1..]);
      assert forall i :: 1 <= i < |attempts| ==> attempts[i] == attempts[1..][i - 1];
      match rest
      case Served(t, s) => Served(t, s)
      case Exhausted(_) => Exhausted(a.outcome.error)
  }

  /** The calls a fallback makes: every provider up to the first that succeeds. */
  function Tried(attempts: seq<Attempt>): (calls: seq<Call>)
    ensures |calls| <= |attempts|
    ensures forall i :: 0 <= i < |calls| ==> calls[i] == attempts[i].call
    ensures forall i :: 0 <= i < |calls| - 1 ==> attempts[i].outcome.Failure?
    ensures |calls| < |attempts| ==> calls != [] && attempts[|calls| - 1].outcome.Success?
    ensures attempts != [] ==> calls != []
  {
    if attempts == [] then []
    else if attempts[0].outcome.Success? then [attempts[0].call]
    else
      var rest := Tried(attempts[1..]);
      assert forall i :: 1 <= i < |attempts| ==> attempts[i] == attempts[1..][i - 1];
      [attempts[0].call] + rest
  }

  /** The two providers of `traduzir_texto`, in the order it tries them. */
  function Providers(o: Oracles, text: string, source: string, target: string): (ps: seq<Attempt>)
    ensures |ps| == 2
    ensures ps[0].service == GoogleService && ps[1].service == MyMemoryService
    ensures ps[0].call == Google(text, source, target) && ps[0].outcome == o.google(text, source, target)
    ensures ps[1].call == MyMemory(text, source, target) && ps[1].outcome == o.myMemory(text, source, target)
  {
    [ Attempt(GoogleService, Google(text, source, target), o.google(text, source, target)),
      Attempt(MyMemoryService, MyMemory(text, source, target), o.myMemory(text, source, target)) ]
  }

  /** The source language: the one given when it is truthy, else `detect(text)`. */
  function SourceLanguage(o: Oracles, text: string, source: Option<string>): (r: Result<string>)
  {
    if Truthy(source) then Success(source.value) else o.detect(text)
  }

  /** The detection call, made only when no source language was given. */
  function Detection(text: string, source: Option<string>): (calls: seq<Call>)
  {
    if Truthy(source) then [] else [Detect(text)]
  }

  /** The try/except cascade of `traduzir_texto`: Google Translate, then
      MyMemory, then an error result naming Google's failure. */
  function Consult(o: Oracles, text: string, source: string, target: string): (r: Translated)
    ensures forall i :: 0 <= i < |r.calls| ==> r.calls[i].Google? || r.calls[i].MyMemory?
    ensures var attempts := Providers(o, text, source, target);
      && r.calls == Tried(attempts)
      && r.result == Success(
        match Fallback(attempts)
        case Served(t, s) => Rendered(t, s)
        case Exhausted(e) => Rendered(ErrorPrefix + e, ErrorService))
  {
    var google := o.google(text, source, target);
    if google.Success? then
      Translated(Success(Rendered(google.value, GoogleService)), [Google(text, source, target)])
    else
      var myMemory := o.myMemory(text, source, target);
      var calls := [Google(text, source, target), MyMemory(text, source, target)];
      if myMemory.Success? then
        Translated(Success(Rendered(myMemory.value, MyMemoryService)), calls)
      else
        Translated(Success(Rendered(ErrorPrefix + google.error, ErrorService)), calls)
  }

  /** `traduzir_texto(text, target, source)` */
  function Translate(o: Oracles, text: string, target: string, source: Option<string>): (r: Translated)
    // only the detector and the two providers are ever called
    ensures forall i :: 0 <= i < |r.calls| ==> r.calls[i].Detect? || r.calls[i].Google? || r.calls[i].MyMemory?
    // blank text comes back unchanged, and nothing is called
    ensures Text.IsBlank(text) ==> r == Translated(Success(Rendered(text, NoService)), [])
    // otherwise the language is detected first, and only when none was given
    ensures !Text.IsBlank(text) ==>
      && |Detection(text, source)| <= |r.calls|
      && r.calls[..|Detection(text, source)|] == Detection(text, source)
    // a failing detect escapes
    ensures !Text.IsBlank(text) && SourceLanguage(o, text, source).Failure? ==>
      r == Translated(Failure(SourceLanguage(o, text, source).error), Detection(text, source))
    // the text is already in the target language: no provider is called
    ensures !Text.IsBlank(text) && SourceLanguage(o, text, source) == Success(target) ==>
      r == Translated(Success(Rendered(text, SameLanguage)), Detection(text, source))
    // otherwise the providers are tried as the fallback policy says, and
    // when both fail the result names Google's error
    ensures !Text.IsBlank(text) && SourceLanguage(o, text, source).Success? && SourceLanguage(o, text, source).value != target ==>
      var attempts := Providers(o, text, SourceLanguage(o, text, source).value, target);
      && r.calls == Detection(text, source) + Tried(attempts)
      && r.result == Success(
        match Fallback(attempts)
        case Served(t, s) => Rendered(t, s)
        case Exhausted(e) => Rendered(ErrorPrefix + e, ErrorService))
  {
    if text == [] || Text.Strip(text) == [] then
      Translated(Success(Rendered(text, NoService)), [])
    else
      var detection := Detection(text, source);
      match SourceLanguage(o, text, source)
      case Failure(e) => Translated(Failure(e), detection)
      case Success(src) =>
        if src == target then
          Translated(Success(Rendered(text, SameLanguage)), detection)
        else
          var consulted := Consult(o, text, src, target);
          Translated(consulted.result, detection + consulted.calls)
  }

  /** `detect` is called only when no source language was given. */
  lemma DetectOnlyWithoutSource(o: Oracles, text: string, target: string, source: Option<string>)
    ensures Detect(text) in Translate(o, text, target, source).calls <==> !Text.IsBlank(text) && !Truthy(source)
  {
  }

  /** When Google succeeds its text is used and MyMemory is never asked. */
  lemma GoogleServesFirst(o: Oracles, text: string, source: string, target: string)
    requires !Text.IsBlank(text) && source != [] && source != target
    requires o.google(text, source, target).Success?
    ensures Translate(o, text, target, Some(source))
      == Translated(Success(Rendered(o.google(text, source, target).value, GoogleService)), [Google(text, source, target)])
  {
  }

  /** When Google fails and MyMemory succeeds, MyMemory's text is used. */
  lemma MyMemoryServesSecond(o: Oracles, text: string, source: string, target: string)
    requires !Text.IsBlank(text) && source != [] && source != target
    requires o.google(text, source, target).Failure? && o.myMemory(text, source, target).Success?
    ensures Translate(o, text, target, Some(source)).result
      == Success(Rendered(o.myMemory(text, source, target).value, MyMemoryService))
  {
  }

  /** When both fail, the reported error is Google's, whatever MyMemory said. */
  lemma BothFailReportGoogle(o: Oracles, text: string, source: string, target: string)
    requires !Text.IsBlank(text) && source != [] && source != target
    requires o.google(text, source, target).Failure? && o.myMemory(text, source, target).Failure?
    ensures Translate(o, text, target, Some(source)).result
      == Success(Rendered(ErrorPrefix + o.google(text, source, target).error, ErrorService))
  {
  }
}
