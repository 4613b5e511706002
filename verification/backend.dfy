/** The collaborators the pipeline calls but does not implement: Whisper's
    loader and its transcription, langdetect's `detect`, and the Google and
    MyMemory translators. Each is an oracle whose answer depends only on its
    arguments; a raised exception is a `Failure` with the text `str(e)`. */
module Backend {
  import opened Wrappers

  /** A loaded Whisper model (what `whisper.load_model` returns). */
  datatype Handle = Handle(id: nat)

  /** The keyword arguments given to `model.transcribe`. A Python dict whose
      "language" key is either set or absent. */
  datatype Options = Options(fp16: bool, verbose: bool, language: Option<string>)

  /** The result dict of `model.transcribe`: its "text" and, when the key is
      present, its "language". */
  datatype Raw = Raw(text: string, language: Option<string>)

  /** One call made to a collaborator, in the order it was made. */
  datatype Call =
    | LoadModel(model: string)
    | RunModel(handle: Handle, audio: string, options: Options)
    | Detect(text: string)
    | Google(text: string, source: string, target: string)
    | MyMemory(text: string, source: string, target: string)

  datatype Oracles = Oracles(
    load: string -> Result<Handle>,
    transcribe: (Handle, string, Options) -> Result<Raw>,
    detect: string -> Result<string>,
    google: (string, string, string) -> Result<string>,
    myMemory: (string, string, string) -> Result<string>)

  /** How often `k` occurs in a count map. */
  function Count(counts: map<string, nat>, k: string): (n: nat)
  {
    if k in counts then counts[k] else 0
  }

  /** The number of loader calls per model name after `calls`, starting from `loads`. */
  function Tally(loads: map<string, nat>, calls: seq<Call>): (r: map<string, nat>)
    ensures loads.Keys <= r.Keys
    decreases |calls|
  {
    if calls == [] then loads
    else
      var next := match calls[0]
        case LoadModel(m) => loads[m := Count(loads, m) + 1]
        case _ => loads;
      Tally(next, calls[1..])
  }

  /** Counting over two stretches of calls is counting over their concatenation. */
  lemma {:induction false} TallyAppend(loads: map<string, nat>, a: seq<Call>, b: seq<Call>)
    ensures Tally(loads, a + b) == Tally(Tally(loads, a), b)
    decreases |a|
  {
    if a == [] {
      assert a + b == b;
    } else {
      assert (a + b)[1..] == a[1..] + b;
      var next := match a[0]
        case LoadModel(m) => loads[m := Count(loads, m) + 1]
        case _ => loads;
      TallyAppend(next, a[1..], b);
    }
  }

  /** Calls that load nothing leave the counts as they were. */
  lemma {:induction false} TallyWithoutLoads(loads: map<string, nat>, calls: seq<Call>)
    requires forall i :: 0 <= i < |calls| ==> !calls[i].LoadModel?
    ensures Tally(loads, calls) == loads
  {
    if calls != [] {
      TallyWithoutLoads(loads, calls[1..]);
    }
  }
}
