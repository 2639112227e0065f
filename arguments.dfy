/**
 * The argument list of a `getFile` command and the way `getFile` folds it into
 * an ordered list of document categories.
 */
module Arguments {
  import opened Wrappers
  import opened DocumentTypes

  /**
   * One element of the command's heterogeneous argument list: a string, an
   * array all of whose elements are strings, or anything else (a number, a
   * dictionary, an array holding a non-string, ...).
   */
  datatype Argument = Str(s: string) | StrArray(items: seq<string>) | Other

  /** The raw values of a list of categories, in order. */
  function RawValues(ts: seq<DocumentType>): seq<string>
  {
    if ts == [] then [] else [RawValue(ts[0])] + RawValues(ts[1..])
  }

  /** The names in `names` that are wire names, in order, duplicates kept. */
  function Recognised(names: seq<string>): seq<string>
  {
    if names == [] then []
    else (if names[0] in WireNames then [names[0]] else []) + Recognised(names[1..])
  }

  /**
   * `array.compactMap { DocumentTypes(rawValue: $0) }`: the categories named
   * by the recognised members of `names`, in array order.
   */
  function CompactMap(names: seq<string>): (r: seq<DocumentType>)
    ensures RawValues(r) == Recognised(names)
    ensures |r| <= |names|
    ensures forall i :: 0 <= i < |r| ==> RawValue(r[i]) in names
  {
    if names == [] then []
    else
      match FromRawValue(names[0])
      case Some(t) => [t] + CompactMap(names[1..])
      case None => CompactMap(names[1..])
  }

  /** The filter list handed to the picker: `documentTypes.map { $0.uti }`. */
  function Utis(ts: seq<DocumentType>): (r: seq<string>)
    ensures |r| == |ts|
    ensures forall i :: 0 <= i < |ts| ==> r[i] == Uti(ts[i])
  {
    if ts == [] then [] else [Uti(ts[0])] + Utis(ts[1..])
  }

  /** What one element of the argument list does to the list accumulated so far. */
  function Step(acc: seq<DocumentType>, a: Argument): (r: seq<DocumentType>)
    ensures a.Str? && a.s in WireNames ==>
              |r| == |acc| + 1 && r[..|acc|] == acc && RawValue(r[|acc|]) == a.s
    ensures a.Str? && a.s !in WireNames ==> r == acc
    ensures a.StrArray? ==> RawValues(r) == Recognised(a.items)
    ensures a.StrArray? ==> forall i :: 0 <= i < |r| ==> RawValue(r[i]) in a.items
    ensures a.Other? ==> r == acc
  {
    match a
    case Str(key) =>
      (match FromRawValue(key)
       case Some(t) => acc + [t]
       case None => acc)
    case StrArray(items) => CompactMap(items)
    case Other => acc
  }

  /** The names an argument carries: the string itself, or the members of a string array. */
  function Carried(a: Argument): set<string>
  {
    match a
    case Str(name) => {name}
    case StrArray(items) => set name | name in items
    case Other => {}
  }

  /** Every name carried by some element of `args`. */
  function CarriedNames(args: seq<Argument>): set<string>
  {
    if args == [] then {} else CarriedNames(args[..|args| - 1]) + Carried(args[|args| - 1])
  }

  /**
   * The list `getFile` builds from a whole argument list, element by element
   * from the left. Every case in it is named by one of the arguments.
   */
  function Folded(args: seq<Argument>): (r: seq<DocumentType>)
    ensures forall i :: 0 <= i < |r| ==> RawValue(r[i]) in CarriedNames(args)
  {
    if args == [] then [] else Step(Folded(args[..|args| - 1]), args[|args| - 1])
  }

  /** The categories contributed by a single argument when no array follows it. */
  function Single(a: Argument): seq<DocumentType>
  {
    if a.Str? && FromRawValue(a.s).Some? then [FromRawValue(a.s).value] else []
  }

  /** The recognised string arguments of `args`, in order; arrays and other values are skipped. */
  function Singles(args: seq<Argument>): seq<DocumentType>
  {
    if args == [] then [] else Singles(args[..|args| - 1]) + Single(args[|args| - 1])
  }

  /** The argument loop of `getFile`: walks the list and returns the categories it asks for. */
  method FoldArguments(args: seq<Argument>) returns (types: seq<DocumentType>)
    ensures types == Folded(args)
  {
    types := [];
    var i := 0;
    while i < |args|
      invariant 0 <= i <= |args|
      invariant types == Folded(args[..i])
    {
      match args[i] {
        case Str(key) =>
          var parsed := FromRawValue(key);
          if parsed.Some? {
            types := types + [parsed.value];
          }
        case StrArray(items) =>
          types := CompactMap(items);
        case Other =>
      }
      assert args[..i + 1][..i] == args[..i];
      i := i + 1;
    }
    assert args[..|args|] == args;
  }

  /** Parsing the raw values of a list of categories gives back that list. */
  lemma {:induction false} CompactMapOfRawValues(ts: seq<DocumentType>)
    ensures CompactMap(RawValues(ts)) == ts
  {
    if ts != [] {
      FromRawValueOfRawValue(ts[0]);
      CompactMapOfRawValues(ts[1..]);
      assert RawValues(ts)[1..] == RawValues(ts[1..]);
    }
  }

  /** A list of categories is determined by its raw values, so CompactMap's contract fixes its result. */
  lemma {:induction false} RawValuesInjective(a: seq<DocumentType>, b: seq<DocumentType>)
    requires RawValues(a) == RawValues(b)
    ensures a == b
  {
    if a != [] && b != [] {
      RawValueInjective(a[0], b[0]);
      assert RawValues(a)[1..] == RawValues(a[1..]);
      assert RawValues(b)[1..] == RawValues(b[1..]);
      RawValuesInjective(a[1..], b[1..]);
    }
  }

  /** Without any array argument, the fold keeps exactly the recognised strings, in order. */
  lemma {:induction false} FoldedWithoutArray(args: seq<Argument>)
    requires forall j :: 0 <= j < |args| ==> !args[j].StrArray?
    ensures Folded(args) == Singles(args)
  {
    if args != [] {
      var n := |args| - 1;
      FoldedWithoutArray(args[..n]);
    }
  }

  /** Folding one more argument is one more step. */
  lemma FoldedSnoc(args: seq<Argument>, a: Argument)
    ensures Folded(args + [a]) == Step(Folded(args), a)
  {
  }

  /** One more argument adds what it contributes on its own to the recognised strings. */
  lemma SinglesSnoc(args: seq<Argument>, a: Argument)
    ensures Singles(args + [a]) == Singles(args) + Single(a)
  {
  }

  /** Folding one more argument that is not an array appends what it contributes on its own. */
  lemma FoldedWithoutArraySnoc(args: seq<Argument>, a: Argument)
    requires !a.StrArray?
    ensures Folded(args + [a]) == Folded(args) + Single(a)
  {
    FoldedSnoc(args, a);
    StepWithoutArray(Folded(args), a);
  }

  /** An argument that is not an array extends the list by what it contributes on its own. */
  lemma StepWithoutArray(acc: seq<DocumentType>, a: Argument)
    requires !a.StrArray?
    ensures Step(acc, a) == acc + Single(a)
  {
  }

  /** Arguments that are not arrays, appended after any list, append their recognised strings. */
  lemma {:induction false} FoldedAppend(before: seq<Argument>, after: seq<Argument>)
    requires forall j :: 0 <= j < |after| ==> !after[j].StrArray?
    ensures Folded(before + after) == Folded(before) + Singles(after)
  {
    if after == [] {
      assert before + after == before;
    } else {
      var m := |after| - 1;
      var shorter, last := after[..m], after[m];
      assert after == shorter + [last];
      assert before + after == (before + shorter) + [last];
      FoldedAppend(before, shorter);
      FoldedWithoutArraySnoc(before + shorter, last);
      SinglesSnoc(shorter, last);
    }
  }

  /**
   * An array argument discards everything before it: the fold is the array's
   * recognised members followed by the recognised strings after it.
   */
  lemma LastArrayWins(before: seq<Argument>, items: seq<string>, after: seq<Argument>)
    requires forall j :: 0 <= j < |after| ==> !after[j].StrArray?
    ensures Folded(before + [StrArray(items)] + after) == CompactMap(items) + Singles(after)
  {
    FoldedAppend(before + [StrArray(items)], after);
    FoldedSnoc(before, StrArray(items));
  }

  /** A list is its part before position k, the element at k, and its part after k. */
  lemma SplitAt<T>(s: seq<T>, k: nat)
    requires k < |s|
    ensures s == s[..k] + [s[k]] + s[k + 1..]
  {
  }

  /** The same fact stated by position: `args[k]` is the last array argument. */
  lemma FoldedAfterArray(args: seq<Argument>, k: nat)
    requires k < |args| && args[k].StrArray?
    requires forall j :: k < j < |args| ==> !args[j].StrArray?
    ensures Folded(args) == CompactMap(args[k].items) + Singles(args[k + 1..])
  {
    SplitAt(args, k);
    LastArrayWins(args[..k], args[k].items, args[k + 1..]);
  }

  /** Worked examples of the fold: a single name, an array of names, an unknown name, nothing. */
  lemma FoldedExamples()
    ensures Folded([Str("pdf")]) == [Pdf]
    ensures Folded([StrArray(["pdf", "image"])]) == [Pdf, Image]
    ensures Folded([Str("bogus")]) == []
    ensures Folded([]) == []
  {
  }

  /** Worked example: an array argument discards the string before it. */
  lemma FoldedOverrideExample()
    ensures Folded([Str("pdf"), StrArray(["image"])]) == [Image]
  {
  }

  /** Worked example: a string after an array is appended; a wrong-case name and a non-string are skipped. */
  lemma FoldedAppendExample()
    ensures Folded([StrArray(["image", "PDF"]), Str("video"), Other]) == [Image, Video]
  {
  }
}
