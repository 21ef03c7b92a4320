/**
 * The in-memory step of the `add-term` command: make sure the loaded YAML
 * document has a `dlp` mapping with a `static_terms` list, and append the term
 * unless it is already there. Reading and writing `config.yaml` are left to
 * the caller; the outcome says whether the command writes.
 */
module Cli {
  import opened Wrappers
  import opened Values
  import opened Config

  /** `add_term` either appends and writes the new document, or reports the term as present and writes nothing. */
  datatype AddTermOutcome = Added(data: Value) | AlreadyExists

  /** The Python exception that stops the command: the document has a shape it cannot extend. */
  datatype CliError =
    | DocumentNotMapping   // `"dlp" not in data` or `data["dlp"] = {}` raises
    | SectionNotMapping    // `"static_terms" not in data["dlp"]` or the item assignment raises
    | TermsNotSearchable   // `term not in ...` raises
    | TermsNotAppendable   // the value has no `append`

  /** `needle in haystack` on two strings. */
  predicate IsSubstring(needle: string, haystack: string)
    decreases |haystack|
  {
    needle <= haystack || (|haystack| > 0 && IsSubstring(needle, haystack[1..]))
  }

  /** The `dlp` section, created empty when absent. */
  function SectionOf(top: map<string, Value>): Value {
    if DlpSection in top then top[DlpSection] else Dict(map[])
  }

  /** The `static_terms` value, created as an empty list when absent. */
  function TermsOf(section: map<string, Value>): Value {
    if StaticTermsField in section then section[StaticTermsField] else List([])
  }

  /** The term list of a document shaped as `add_term` leaves it, if it is so shaped. */
  function StaticTerms(data: Value): Option<seq<Value>> {
    if data.Dict? && DlpSection in data.entries && data.entries[DlpSection].Dict?
       && StaticTermsField in data.entries[DlpSection].entries
       && data.entries[DlpSection].entries[StaticTermsField].List?
    then Some(data.entries[DlpSection].entries[StaticTermsField].items)
    else None
  }

  /** Whether Python's `term in value` is true for the current term value; it raises for other types. */
  predicate Contains(terms: Value, term: string)
    requires terms.List? || terms.Str? || terms.Dict?
  {
    match terms
    case List(items) => Str(term) in items
    case Str(s) => IsSubstring(term, s)
    case Dict(m) => term in m
  }

  /** `add_term(term)` applied to the loaded document. */
  function AddTerm(data: Value, term: string): (r: Result<AddTermOutcome, CliError>)
    ensures r.Success? <==>
      && data.Dict?
      && SectionOf(data.entries).Dict?
      && var terms := TermsOf(SectionOf(data.entries).entries);
         terms.List? || ((terms.Str? || terms.Dict?) && Contains(terms, term))
    ensures r.Success? ==> data.Dict? && SectionOf(data.entries).Dict?
    ensures r.Success? ==>
      var terms := TermsOf(SectionOf(data.entries).entries);
      && (terms.List? || terms.Str? || terms.Dict?)
      && (r.value.AlreadyExists? <==> Contains(terms, term))
    ensures r.Success? && r.value.Added? ==>
      var terms := TermsOf(SectionOf(data.entries).entries);
      && terms.List?
      && StaticTerms(r.value.data) == Some(terms.items + [Str(term)])
    ensures r.Success? && r.value.Added? ==>
      && r.value.data.Dict?
      && r.value.data.entries.Keys == data.entries.Keys + {DlpSection}
      && (forall k :: k in data.entries && k != DlpSection ==> r.value.data.entries[k] == data.entries[k])
      && r.value.data.entries[DlpSection].Dict?
      && r.value.data.entries[DlpSection].entries.Keys ==
           SectionOf(data.entries).entries.Keys + {StaticTermsField}
      && (forall k :: k in SectionOf(data.entries).entries && k != StaticTermsField ==>
            r.value.data.entries[DlpSection].entries[k] == SectionOf(data.entries).entries[k])
  {
    match data
    case Dict(top) =>
      (match SectionOf(top)
       case Dict(section) =>
         (match TermsOf(section)
          case List(items) =>
            if Str(term) in items then Success(AlreadyExists)
            else
              var section' := section[StaticTermsField := List(items + [Str(term)])];
              Success(Added(Dict(top[DlpSection := Dict(section')])))
          case Str(s) => if IsSubstring(term, s) then Success(AlreadyExists) else Failure(TermsNotAppendable)
          case Dict(m) => if term in m then Success(AlreadyExists) else Failure(TermsNotAppendable)
          case _ => Failure(TermsNotSearchable))
       case _ => Failure(SectionNotMapping))
    case _ => Failure(DocumentNotMapping)
  }

  /** The document `config.yaml` holds after the command: the new one if it wrote, the old one otherwise. */
  function Saved(data: Value, r: Result<AddTermOutcome, CliError>): Value {
    if r.Success? && r.value.Added? then r.value.data else data
  }

  /** A well-shaped document: a mapping whose `dlp` section is a mapping with a term list, or without one. */
  predicate Extensible(data: Value) {
    && data.Dict?
    && SectionOf(data.entries).Dict?
    && TermsOf(SectionOf(data.entries).entries).List?
  }

  /** On a well-shaped document the command succeeds, and afterwards the term is listed. */
  lemma AddTermListsTerm(data: Value, term: string)
    requires Extensible(data)
    ensures AddTerm(data, term).Success?
    ensures var saved := Saved(data, AddTerm(data, term));
      StaticTerms(saved).Some? && Str(term) in StaticTerms(saved).value
  {
  }

  /** Running the command twice is running it once: the second run finds the term and writes nothing. */
  lemma AddTermIdempotent(data: Value, term: string)
    requires AddTerm(data, term).Success?
    ensures var saved := Saved(data, AddTerm(data, term));
      && AddTerm(saved, term).Success?
      && AddTerm(saved, term).value == AlreadyExists
      && Saved(saved, AddTerm(saved, term)) == saved
  {
    var r := AddTerm(data, term);
    if r.value.Added? {
      var items := TermsOf(SectionOf(data.entries).entries).items;
      assert Str(term) in items + [Str(term)];
    }
  }

  /** A term list without duplicates stays without duplicates. */
  lemma AddTermKeepsTermsDistinct(data: Value, term: string)
    requires Extensible(data)
    requires var items := TermsOf(SectionOf(data.entries).entries).items;
      forall i, j :: 0 <= i < j < |items| ==> items[i] != items[j]
    ensures var items' := StaticTerms(Saved(data, AddTerm(data, term))).value;
      forall i, j :: 0 <= i < j < |items'| ==> items'[i] != items'[j]
  {
    AddTermListsTerm(data, term);
  }
}
