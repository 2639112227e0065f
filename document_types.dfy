/**
 * The closed set of document categories a caller may ask for, their wire names
 * (the enum's raw values) and the platform content-type identifier of each.
 */
module DocumentTypes {
  import opened Wrappers

  /** One case per enum case, in declaration order. */
  datatype DocumentType = Pdf | Image | All | Audio | Video

  /** The exact, case-sensitive names accepted on the wire. */
  const WireNames: set<string> := {"pdf", "image", "all", "audio", "video"}

  /** The five content-type identifiers the picker is filtered by. */
  const UtiIdentifiers: set<string> :=
    {"com.adobe.pdf", "public.image", "public.movie", "public.audio", "public.data"}

  /** The raw value of a case: its name, as Swift derives it for a String-backed enum. */
  function RawValue(t: DocumentType): (r: string)
    ensures r in WireNames
  {
    match t
    case Pdf => "pdf"
    case Image => "image"
    case All => "all"
    case Audio => "audio"
    case Video => "video"
  }

  /** The failable initialiser `DocumentTypes(rawValue:)`. */
  function FromRawValue(name: string): (r: Option<DocumentType>)
    ensures r.Some? <==> name in WireNames
    ensures r.Some? ==> RawValue(r.value) == name
  {
    if name == "pdf" then Some(Pdf)
    else if name == "image" then Some(Image)
    else if name == "all" then Some(All)
    else if name == "audio" then Some(Audio)
    else if name == "video" then Some(Video)
    else None
  }

  /** The `uti` property: the platform identifier of each category. */
  function Uti(t: DocumentType): (r: string)
    ensures r in UtiIdentifiers
  {
    match t
    case Pdf => "com.adobe.pdf"
    case Image => "public.image"
    case Video => "public.movie"
    case Audio => "public.audio"
    case All => "public.data"
  }

  /** The exact raw value of every case: its own name. */
  lemma RawValueTable()
    ensures RawValue(Pdf) == "pdf" && RawValue(Image) == "image" && RawValue(All) == "all"
            && RawValue(Audio) == "audio" && RawValue(Video) == "video"
  {
  }

  /** The exact identifier of every case. */
  lemma UtiTable()
    ensures Uti(Pdf) == "com.adobe.pdf" && Uti(Image) == "public.image" && Uti(Video) == "public.movie"
            && Uti(Audio) == "public.audio" && Uti(All) == "public.data"
  {
  }

  /** Parsing the raw value of a case gives back that case. */
  lemma FromRawValueOfRawValue(t: DocumentType)
    ensures FromRawValue(RawValue(t)) == Some(t)
  {
  }

  /** Distinct cases have distinct raw values. */
  lemma RawValueInjective(a: DocumentType, b: DocumentType)
    ensures RawValue(a) == RawValue(b) <==> a == b
  {
  }

  /** Distinct cases have distinct identifiers, so a filter list determines the categories. */
  lemma UtiInjective(a: DocumentType, b: DocumentType)
    ensures Uti(a) == Uti(b) <==> a == b
  {
  }

  /** Every identifier in UtiIdentifiers is the identifier of some case: `uti` is onto. */
  lemma UtiOnto(id: string)
    requires id in UtiIdentifiers
    ensures exists t :: Uti(t) == id
  {
    if id == "com.adobe.pdf" { assert Uti(Pdf) == id; }
    else if id == "public.image" { assert Uti(Image) == id; }
    else if id == "public.movie" { assert Uti(Video) == id; }
    else if id == "public.audio" { assert Uti(Audio) == id; }
    else { assert Uti(All) == id; }
  }
}
