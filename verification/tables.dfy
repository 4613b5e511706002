/** The fixed name tables of the application: quality labels to Whisper
    model sizes, and language labels to language codes. A Python dict is an
    ordered sequence of (key, value) entries, because the reverse lookup
    walks the entries in insertion order. */
module Tables {
  import opened Wrappers

  type Table = seq<(string, string)>

  /** Quality name to Whisper model size (QUALIDADE_PARA_MODELO). */
  const QualityToModel: Table := [
    ("Muito Rápida", "tiny"),
    ("Rápida", "base"),
    ("Balanceada", "small"),
    ("Alta Qualidade", "medium"),
    ("Máxima Qualidade", "large")
  ]

  /** The auto-detect name and its code. */
  const AutoLabel: string := "Detecção Automática"
  const Auto: string := "auto"

  /** Language name to language code (IDIOMAS). */
  const Languages: Table := [
    (AutoLabel, Auto),
    ("Português", "pt"),
    ("Inglês", "en"),
    ("Espanhol", "es"),
    ("Francês", "fr"),
    ("Alemão", "de"),
    ("Italiano", "it"),
    ("Japonês", "ja"),
    ("Coreano", "ko"),
    ("Chinês (Simplificado)", "zh-CN"),
    ("Russo", "ru"),
    ("Árabe", "ar")
  ]

  /** Destination languages (IDIOMAS_DESTINO): every entry but auto-detect. */
  const TargetLanguages: Table := Without(Languages, AutoLabel)

  predicate HasKey(t: Table, key: string)
  {
    exists i :: 0 <= i < |t| && t[i].0 == key
  }

  predicate HasValue(t: Table, value: string)
  {
    exists i :: 0 <= i < |t| && t[i].1 == value
  }

  /** No key occurs twice: what a dict guarantees. */
  predicate DistinctKeys(t: Table)
  {
    forall i, j :: 0 <= i < j < |t| ==> t[i].0 != t[j].0
  }

  /** No value occurs twice: the table can be read backwards. */
  predicate DistinctValues(t: Table)
  {
    forall i, j :: 0 <= i < j < |t| ==> t[i].1 != t[j].1
  }

  /** `t.get(key)`, and `t[key]` where None stands for the KeyError. */
  function Get(t: Table, key: string): (r: Option<string>)
    ensures r.None? <==> !HasKey(t, key)
    ensures r.Some? ==> exists i :: 0 <= i < |t| && t[i] == (key, r.value)
  {
    if t == [] then None
    else if t[0].0 == key then Some(t[0].1)
    else
      var r := Get(t[1..], key);
      assert forall i :: 1 <= i < |t| ==> t[i] == t[1..][i - 1];
      r
  }

  /** `{k: v for k, v in t.items() if k != key}` */
  function Without(t: Table, key: string): (r: Table)
    ensures |r| <= |t|
    ensures forall e :: e in r <==> e in t && e.0 != key
    ensures DistinctKeys(t) ==> DistinctKeys(r)
  {
    if t == [] then []
    else if t[0].0 == key then Without(t[1..], key)
    else [t[0]] + Without(t[1..], key)
  }

  /** `next((k for k, v in t.items() if v == code), code)`: the first name
      whose value is `code`, or `code` itself when there is none. */
  function LabelFor(t: Table, code: string): (r: string)
    ensures !HasValue(t, code) ==> r == code
    ensures HasValue(t, code) ==>
      exists i :: 0 <= i < |t| && t[i] == (r, code) && forall j :: 0 <= j < i ==> t[j].1 != code
  {
    if t == [] then code
    else if t[0].1 == code then t[0].0
    else
      var r := LabelFor(t[1..], code);
      assert forall i :: 1 <= i < |t| ==> t[i] == t[1..][i - 1];
      r
  }

  /** Dropping one key from a table leaves every other lookup as it was. */
  lemma {:induction false} GetWithout(t: Table, key: string, name: string)
    ensures Get(Without(t, key), name) == if name == key then None else Get(t, name)
  {
    if t != [] {
      GetWithout(t[1..], key, name);
    }
  }

  /** With distinct values, the reverse lookup of a label's code is that label. */
  lemma LabelForCode(t: Table, name: string)
    requires DistinctValues(t) && HasKey(t, name)
    ensures LabelFor(t, Get(t, name).value) == name
  {
  }

  /** With distinct keys, looking up the label found for a known code gives that code back. */
  lemma CodeOfLabelFor(t: Table, code: string)
    requires DistinctKeys(t) && HasValue(t, code)
    ensures Get(t, LabelFor(t, code)) == Some(code)
  {
  }

  /** Both tables are well formed: keys and values are distinct. */
  lemma TablesAreBijective()
    ensures DistinctKeys(QualityToModel) && DistinctValues(QualityToModel)
    ensures DistinctKeys(Languages) && DistinctValues(Languages)
  {
  }

  /** IDIOMAS_DESTINO is IDIOMAS minus the auto-detect entry, and "auto" is
      not one of its codes. */
  lemma TargetLanguagesExcludeAuto(name: string)
    ensures Get(TargetLanguages, name) == if name == AutoLabel then None else Get(Languages, name)
    ensures !HasValue(TargetLanguages, Auto)
  {
    GetWithout(Languages, AutoLabel, name);
    TablesAreBijective();
  }

  /** Only the auto-detect label has the code "auto". */
  lemma AutoCodeOnlyForAutoLabel(name: string)
    ensures Get(Languages, name) == Some(Auto) <==> name == AutoLabel
  {
  }

  /** The label shown for a known code is a label with that code. */
  lemma ShownLabelHasCode(code: string)
    ensures HasValue(Languages, code) ==> Get(Languages, LabelFor(Languages, code)) == Some(code)
  {
    if HasValue(Languages, code) {
      TablesAreBijective();
      CodeOfLabelFor(Languages, code);
    }
  }
}
