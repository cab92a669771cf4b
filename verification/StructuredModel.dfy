/** Requirement models as JSON, and the normal form in which they are cached and read. */
module StructuredModel {
  import Strings = Text

  /** The property names of the schema. */
  datatype Name =
    | DocumentInfo | ProjectName | RequirementName
    | Background | Summary | Objective
    | Scope | InScope | OutOfScope
    | UsersAndScenarios | TargetUsers | CoreScenarios
    | FunctionalRequirements | Overview | FeatureDetails
    | FeatureName | Description | Trigger | ProcessingLogic | Inputs | Outputs | ExceptionCases
    | BusinessRules
    | PageAndInteraction | Pages | InteractionFlow
    | PageName | EntryPoint | PageElements | ButtonActions
    | Copywriting | DataAndDependencies | RisksAndNotes | AcceptanceCriteria | OpenQuestions
    | CollectionStatus | Users | Scenarios | Features | Rules | Integrations | Acceptance
    | StatusName | Reason | PendingQuestions
    | OtherName(name: string)

  /** Numbers and Booleans are scalars; `text` is what `str` makes of them. */
  datatype Json = Null | Scalar(text: string) | Text(text: string) | Array(items: seq<Json>) | Object(fields: map<Name, Json>)

  /** `str` of a list or an object, which the schema expects nowhere. */
  type Printer = Json -> string

  function StringValue(py: Printer, value: Json): Json {
    match value
    case Null => Text("")
    case Scalar(s) => Text(Strings.Strip(s))
    case Text(s) => Text(Strings.Strip(s))
    case _ => Text(Strings.Strip(py(value)))
  }

  function NonEmptyStrings(py: Printer, items: seq<Json>): seq<Json> {
    if items == [] then []
    else
      var last := StringValue(py, items[|items| - 1]);
      NonEmptyStrings(py, items[..|items| - 1]) + if last.text != "" then [last] else []
  }

  function StringList(py: Printer, value: Json): Json {
    match value
    case Array(items) => Array(NonEmptyStrings(py, items))
    case Text(s) => Array(if Strings.Strip(s) != "" then [Text(Strings.Strip(s))] else [])
    case _ => Array([])
  }

  function Get(value: Json, name: Name): Json {
    if value.Object? && name in value.fields then value.fields[name] else Null
  }

  predicate HasContent(value: Json) {
    value.Object? && exists name :: name in value.fields && NotEmpty(value.fields[name])
  }

  predicate NotEmpty(value: Json) {
    (value.Array? && value.items != []) || (value.Text? && value.text != "")
  }

  function Feature(py: Printer, raw: Json): Json {
    Object(map[
      FeatureName := StringValue(py, Get(raw, FeatureName)),
      Description := StringValue(py, Get(raw, Description)),
      Trigger := StringValue(py, Get(raw, Trigger)),
      ProcessingLogic := StringValue(py, Get(raw, ProcessingLogic)),
      Inputs := StringList(py, Get(raw, Inputs)),
      Outputs := StringList(py, Get(raw, Outputs)),
      ExceptionCases := StringList(py, Get(raw, ExceptionCases))])
  }

  function Page(py: Printer, raw: Json): Json {
    Object(map[
      PageName := StringValue(py, Get(raw, PageName)),
      EntryPoint := StringValue(py, Get(raw, EntryPoint)),
      PageElements := StringList(py, Get(raw, PageElements)),
      ButtonActions := StringList(py, Get(raw, ButtonActions))])
  }

  /** Features or pages: objects with some content, each in its normal form. */
  function Entries(items: seq<Json>, normal: Json -> Json): seq<Json> {
    if items == [] then []
    else
      var raw := items[|items| - 1];
      Entries(items[..|items| - 1], normal) + if raw.Object? && HasContent(normal(raw)) then [normal(raw)] else []
  }

  function EntryList(value: Json, normal: Json -> Json): Json {
    Array(if value.Array? then Entries(value.items, normal) else [])
  }

  const STATUSES := ["missing", "captured", "pending_confirmation", "confirmed", "conflict"]

  function Lower(s: string): (r: string)
    ensures |r| == |s|
  {
    seq(|s|, i requires 0 <= i < |s| => if 'A' <= s[i] <= 'Z' then s[i] + 32 as char else s[i])
  }

  function StatusValue(py: Printer, value: Json): string {
    var status := Lower(StringValue(py, value).text);
    if status in STATUSES then status else "missing"
  }

  /** For something that is no object this is the empty status. */
  function StatusItem(py: Printer, value: Json): Json {
    Object(map[
      StatusName := Text(StatusValue(py, Get(value, StatusName))),
      Reason := StringValue(py, Get(value, Reason)),
      PendingQuestions := StringList(py, Get(value, PendingQuestions))])
  }

  function NormalFeatures(py: Printer, value: Json): Json { EntryList(value, raw => Feature(py, raw)) }

  function NormalPages(py: Printer, value: Json): Json { EntryList(value, raw => Page(py, raw)) }

  method FeatureDetailsOf(py: Printer, value: Json) returns (items: seq<Json>)
    ensures Array(items) == NormalFeatures(py, value)
  {
    hide Feature, HasContent;
    items := [];
    if !value.Array? { return; }
    ghost var normal := (raw: Json) => Feature(py, raw);
    var i := 0;
    while i < |value.items|
      invariant 0 <= i <= |value.items|
      invariant items == Entries(value.items[..i], normal)
    {
      var rawItem := value.items[i];
      assert value.items[..i + 1][..i] == value.items[..i];
      if rawItem.Object? {
        var item := Feature(py, rawItem);
        if HasContent(item) { items := items + [item]; }
      }
      i := i + 1;
    }
    assert value.items[..i] == value.items;
  }

  method PagesOf(py: Printer, value: Json) returns (items: seq<Json>)
    ensures Array(items) == NormalPages(py, value)
  {
    hide Page, HasContent;
    items := [];
    if !value.Array? { return; }
    ghost var normal := (raw: Json) => Page(py, raw);
    var i := 0;
    while i < |value.items|
      invariant 0 <= i <= |value.items|
      invariant items == Entries(value.items[..i], normal)
    {
      var rawItem := value.items[i];
      assert value.items[..i + 1][..i] == value.items[..i];
      if rawItem.Object? {
        var item := Page(py, rawItem);
        if HasContent(item) { items := items + [item]; }
      }
      i := i + 1;
    }
    assert value.items[..i] == value.items;
  }

  function TextSection(py: Printer, value: Json, a: Name, b: Name): Json {
    Object(map[a := StringValue(py, Get(value, a)), b := StringValue(py, Get(value, b))])
  }

  function ListSection(py: Printer, value: Json, a: Name, b: Name): Json {
    Object(map[a := StringList(py, Get(value, a)), b := StringList(py, Get(value, b))])
  }

  function FunctionalSection(py: Printer, value: Json): Json {
    Object(map[Overview := StringValue(py, Get(value, Overview)),
               FeatureDetails := NormalFeatures(py, Get(value, FeatureDetails))])
  }

  function PageSection(py: Printer, value: Json): Json {
    Object(map[Pages := NormalPages(py, Get(value, Pages)), InteractionFlow := StringList(py, Get(value, InteractionFlow))])
  }

  const ITEMS := {Objective, Scope, Users, Scenarios, Features, Pages, Rules, Integrations, Acceptance}

  function CollectionSection(py: Printer, value: Json): Json {
    Object(map name | name in ITEMS :: StatusItem(py, Get(value, name)))
  }

  const TEXT_LISTS := {BusinessRules, Copywriting, DataAndDependencies, RisksAndNotes, AcceptanceCriteria, OpenQuestions}

  const SECTIONS := TEXT_LISTS + {DocumentInfo, Background, Scope, UsersAndScenarios,
                                FunctionalRequirements, PageAndInteraction, CollectionStatus}

  /** One property of the model, from the same property of the payload. */
  function Section(py: Printer, name: Name, value: Json): Json {
    match name
    case DocumentInfo => TextSection(py, value, ProjectName, RequirementName)
    case Background => TextSection(py, value, Summary, Objective)
    case Scope => ListSection(py, value, InScope, OutOfScope)
    case UsersAndScenarios => ListSection(py, value, TargetUsers, CoreScenarios)
    case FunctionalRequirements => FunctionalSection(py, value)
    case PageAndInteraction => PageSection(py, value)
    case CollectionStatus => CollectionSection(py, value)
    case _ => StringList(py, value)
  }

  /** Whatever the payload, a model with every property of the schema and no other. */
  function Normalize(py: Printer, payload: Json): Json {
    Object(map name | name in SECTIONS :: Section(py, name, Get(payload, name)))
  }

  // ----- normal forms stay as they are -----

  lemma StringValueAgain(py: Printer, value: Json)
    ensures StringValue(py, StringValue(py, value)) == StringValue(py, value) && StringValue(py, value).Text?
  {
  }

  lemma {:induction false} NonEmptyStringsAgain(py: Printer, items: seq<Json>)
    ensures NonEmptyStrings(py, NonEmptyStrings(py, items)) == NonEmptyStrings(py, items)
  {
    hide StringValue;
    if items != [] {
      var n := |items| - 1;
      NonEmptyStringsAgain(py, items[..n]);
      StringValueAgain(py, items[n]);
      var front, last := NonEmptyStrings(py, items[..n]), StringValue(py, items[n]);
      if last.text != "" { assert (front + [last])[..|front|] == front; } else { assert NonEmptyStrings(py, items) == front; }
    }
  }

  lemma StringListAgain(py: Printer, value: Json)
    ensures StringList(py, StringList(py, value)) == StringList(py, value)
  {
    if value.Array? {
      NonEmptyStringsAgain(py, value.items);
    } else if value.Text? && Strings.Strip(value.text) != "" {
      var t := Text(Strings.Strip(value.text));
      assert [t][..0] == [];
      assert NonEmptyStrings(py, [t]) == [t];
    }
  }

  ghost predicate Settles(normal: Json -> Json) { forall raw :: normal(normal(raw)) == normal(raw) }

  lemma {:induction false} EntriesAgain(items: seq<Json>, normal: Json -> Json)
    requires Settles(normal)
    ensures Entries(Entries(items, normal), normal) == Entries(items, normal)
  {
    hide HasContent;
    if items != [] {
      var n := |items| - 1;
      EntriesAgain(items[..n], normal);
      var front, last := Entries(items[..n], normal), normal(items[n]);
      if items[n].Object? && HasContent(last) {
        assert last.Object? by { ContentIsObject(last); }
        assert (front + [last])[..|front|] == front;
      } else {
        assert Entries(items, normal) == front;
      }
    }
  }

  /** The kept indices are exactly those of objects with content. */
  lemma {:induction false} KeptAreObjectsWithContent(items: seq<Json>, normal: Json -> Json, i: nat)
    requires i < |items|
    ensures i in KeptIndices(items, normal) <==> items[i].Object? && HasContent(normal(items[i]))
  {
    hide HasContent;
    var n := |items| - 1;
    var front := KeptIndices(items[..n], normal);
    assert n !in front;
    if i < n { KeptAreObjectsWithContent(items[..n], normal, i); }
  }

  /** The list holds the normal forms of the kept ones: nothing else is dropped, and
      nothing is added or moved. */
  lemma {:induction false} EntriesAreKept(items: seq<Json>, normal: Json -> Json)
    ensures var r := Entries(items, normal); var kept := KeptIndices(items, normal);
            |r| == |kept| && forall k :: 0 <= k < |r| ==> r[k] == normal(items[kept[k]])
  {
    hide HasContent;
    if items != [] {
      EntriesAreKept(items[..|items| - 1], normal);
    }
  }

  function KeptIndices(items: seq<Json>, normal: Json -> Json): (r: seq<nat>)
    ensures forall k :: 0 <= k < |r| ==> r[k] < |items| && (k > 0 ==> r[k - 1] < r[k])
  {
    if items == [] then []
    else
      var n := |items| - 1;
      KeptIndices(items[..n], normal) + if items[n].Object? && HasContent(normal(items[n])) then [n] else []
  }

  lemma ContentIsObject(value: Json)
    requires HasContent(value)
    ensures value.Object?
  {
  }

  lemma FeatureAgain(py: Printer, raw: Json)
    ensures Feature(py, Feature(py, raw)) == Feature(py, raw)
  {
    hide StringValue, StringList;
    StringValueAgain(py, Get(raw, FeatureName));
    StringValueAgain(py, Get(raw, Description));
    StringValueAgain(py, Get(raw, Trigger));
    StringValueAgain(py, Get(raw, ProcessingLogic));
    StringListAgain(py, Get(raw, Inputs));
    StringListAgain(py, Get(raw, Outputs));
    StringListAgain(py, Get(raw, ExceptionCases));
  }

  lemma PageAgain(py: Printer, raw: Json)
    ensures Page(py, Page(py, raw)) == Page(py, raw)
  {
    hide StringValue, StringList;
    StringValueAgain(py, Get(raw, PageName));
    StringValueAgain(py, Get(raw, EntryPoint));
    StringListAgain(py, Get(raw, PageElements));
    StringListAgain(py, Get(raw, ButtonActions));
  }

  lemma FeaturesAgain(py: Printer, value: Json)
    ensures NormalFeatures(py, NormalFeatures(py, value)) == NormalFeatures(py, value)
  {
    hide Feature, Entries;
    var normal := (raw: Json) => Feature(py, raw);
    forall raw ensures normal(normal(raw)) == normal(raw) { FeatureAgain(py, raw); }
    if value.Array? { EntriesAgain(value.items, normal); } else { NoEntries(normal); }
  }

  lemma NoEntries(normal: Json -> Json)
    ensures Entries([], normal) == []
  {
  }

  lemma PagesAgain(py: Printer, value: Json)
    ensures NormalPages(py, NormalPages(py, value)) == NormalPages(py, value)
  {
    hide Page, Entries;
    var normal := (raw: Json) => Page(py, raw);
    forall raw ensures normal(normal(raw)) == normal(raw) { PageAgain(py, raw); }
    if value.Array? { EntriesAgain(value.items, normal); } else { NoEntries(normal); }
  }

  /** Whatever the value, its status is one of the five; anything else counts as missing. */
  lemma StatusItemAgain(py: Printer, value: Json)
    ensures StatusItem(py, StatusItem(py, value)) == StatusItem(py, value)
    ensures StatusValue(py, Get(value, StatusName)) in STATUSES
            && Get(StatusItem(py, value), StatusName) == Text(StatusValue(py, Get(value, StatusName)))
    ensures Lower(StringValue(py, Get(value, StatusName)).text) !in STATUSES ==>
              StatusValue(py, Get(value, StatusName)) == "missing"
  {
    hide StringValue, StringList, StatusValue, Lower;
    StatusFallsBack(py, Get(value, StatusName));
    StatusValueAgain(py, StatusValue(py, Get(value, StatusName)));
    StatusIsListed(py, Get(value, StatusName));
    StringValueAgain(py, Get(value, Reason));
    StringListAgain(py, Get(value, PendingQuestions));
  }

  lemma StatusFallsBack(py: Printer, value: Json)
    ensures Lower(StringValue(py, value).text) !in STATUSES ==> StatusValue(py, value) == "missing"
  {
    hide StringValue, Lower;
  }

  lemma StatusIsListed(py: Printer, value: Json)
    ensures StatusValue(py, value) in STATUSES
  {
    assert STATUSES[0] == "missing";
  }

  lemma StatusValueAgain(py: Printer, status: string)
    ensures status in STATUSES ==> StatusValue(py, Text(status)) == status
  {
    if status in STATUSES {
      assert status != "" && !Strings.IsSpace(status[0]) && !Strings.IsSpace(status[|status| - 1]);
      assert Lower(status) == status;
    }
  }

  lemma SectionAgain(py: Printer, name: Name, value: Json)
    ensures Section(py, name, Section(py, name, value)) == Section(py, name, value)
  {
    hide Section;
    if name.DocumentInfo? || name.Background? || name.Scope? || name.UsersAndScenarios? {
      SmallSectionAgain(py, name, value);
    } else {
      OtherSectionAgain(py, name, value);
    }
  }

  lemma SmallSectionAgain(py: Printer, name: Name, value: Json)
    requires name.DocumentInfo? || name.Background? || name.Scope? || name.UsersAndScenarios?
    ensures Section(py, name, Section(py, name, value)) == Section(py, name, value)
  {
    hide TextSection, ListSection;
    match name
    case DocumentInfo => TextSectionAgain(py, value, ProjectName, RequirementName);
    case Background => TextSectionAgain(py, value, Summary, Objective);
    case Scope => ListSectionAgain(py, value, InScope, OutOfScope);
    case UsersAndScenarios => ListSectionAgain(py, value, TargetUsers, CoreScenarios);
  }

  lemma OtherSectionAgain(py: Printer, name: Name, value: Json)
    requires !(name.DocumentInfo? || name.Background? || name.Scope? || name.UsersAndScenarios?)
    ensures Section(py, name, Section(py, name, value)) == Section(py, name, value)
  {
    hide Section;
    match name
    case FunctionalRequirements => FunctionalRequirementsAgain(py, value);
    case PageAndInteraction => PageAndInteractionAgain(py, value);
    case CollectionStatus => CollectionStatusAgain(py, value);
    case _ => PlainListAgain(py, name, value);
  }

  lemma FunctionalRequirementsAgain(py: Printer, value: Json)
    ensures Section(py, FunctionalRequirements, Section(py, FunctionalRequirements, value))
            == Section(py, FunctionalRequirements, value)
  {
    hide FunctionalSection;
    FunctionalAgain(py, value);
  }

  lemma PageAndInteractionAgain(py: Printer, value: Json)
    ensures Section(py, PageAndInteraction, Section(py, PageAndInteraction, value)) == Section(py, PageAndInteraction, value)
  {
    hide PageSection;
    PageSectionAgain(py, value);
  }

  lemma CollectionStatusAgain(py: Printer, value: Json)
    ensures Section(py, CollectionStatus, Section(py, CollectionStatus, value)) == Section(py, CollectionStatus, value)
  {
    hide CollectionSection;
    CollectionAgain(py, value);
  }

  lemma SectionIsList(py: Printer, name: Name, value: Json)
    requires !(name.DocumentInfo? || name.Background? || name.Scope? || name.UsersAndScenarios?)
    requires !(name.FunctionalRequirements? || name.PageAndInteraction? || name.CollectionStatus?)
    ensures Section(py, name, value) == StringList(py, value)
  {
    hide StringList;
  }

  lemma PlainListAgain(py: Printer, name: Name, value: Json)
    requires !(name.DocumentInfo? || name.Background? || name.Scope? || name.UsersAndScenarios?)
    requires !(name.FunctionalRequirements? || name.PageAndInteraction? || name.CollectionStatus?)
    ensures Section(py, name, Section(py, name, value)) == Section(py, name, value)
  {
    hide Section, StringList;
    SectionIsList(py, name, value);
    SectionIsList(py, name, StringList(py, value));
    StringListAgain(py, value);
  }

  lemma TextSectionAgain(py: Printer, value: Json, a: Name, b: Name)
    requires a != b
    ensures TextSection(py, TextSection(py, value, a, b), a, b) == TextSection(py, value, a, b)
  {
    hide StringValue;
    StringValueAgain(py, Get(value, a));
    StringValueAgain(py, Get(value, b));
  }

  lemma ListSectionAgain(py: Printer, value: Json, a: Name, b: Name)
    requires a != b
    ensures ListSection(py, ListSection(py, value, a, b), a, b) == ListSection(py, value, a, b)
  {
    hide StringList;
    StringListAgain(py, Get(value, a));
    StringListAgain(py, Get(value, b));
  }

  lemma FunctionalAgain(py: Printer, value: Json)
    ensures FunctionalSection(py, FunctionalSection(py, value)) == FunctionalSection(py, value)
  {
    hide StringValue, NormalFeatures;
    StringValueAgain(py, Get(value, Overview));
    FeaturesAgain(py, Get(value, FeatureDetails));
  }

  lemma PageSectionAgain(py: Printer, value: Json)
    ensures PageSection(py, PageSection(py, value)) == PageSection(py, value)
  {
    hide StringList, NormalPages;
    PagesAgain(py, Get(value, Pages));
    StringListAgain(py, Get(value, InteractionFlow));
  }

  lemma CollectionAgain(py: Printer, value: Json)
    ensures CollectionSection(py, CollectionSection(py, value)) == CollectionSection(py, value)
  {
    hide StatusItem;
    forall name | name in ITEMS ensures StatusItem(py, StatusItem(py, Get(value, name))) == StatusItem(py, Get(value, name)) {
      StatusItemAgain(py, Get(value, name));
    }
  }

  /** A normal model, read again, is the same model: what the cache gives back is what
      was put in. */
  lemma NormalizeAgain(py: Printer, payload: Json)
    ensures Normalize(py, Normalize(py, payload)) == Normalize(py, payload)
  {
    hide Section;
    forall name | name in SECTIONS
      ensures Section(py, name, Section(py, name, Get(payload, name))) == Section(py, name, Get(payload, name))
    {
      SectionAgain(py, name, Get(payload, name));
    }
  }

  /** The canonical status in place of a model's own. */
  function WithCanonicalStatus(py: Printer, model: Json, canonical: Json): Json {
    Object(Normalize(py, model).fields[CollectionStatus := Get(Normalize(py, canonical), CollectionStatus)])
  }

  lemma NormalFields(py: Printer, payload: Json)
    ensures Normalize(py, payload).Object? && Normalize(py, payload).fields.Keys == SECTIONS
            && CollectionStatus in SECTIONS
    ensures forall name :: name in SECTIONS ==>
              Section(py, name, Normalize(py, payload).fields[name]) == Normalize(py, payload).fields[name]
  {
    hide Section;
    forall name | name in SECTIONS
      ensures Section(py, name, Normalize(py, payload).fields[name]) == Normalize(py, payload).fields[name]
    {
      SectionAgain(py, name, Get(payload, name));
    }
  }

  lemma NormalIfSettled(py: Printer, value: Json)
    requires value.Object? && value.fields.Keys == SECTIONS
    requires forall name :: name in SECTIONS ==> Section(py, name, value.fields[name]) == value.fields[name]
    ensures Normalize(py, value) == value
  {
    hide Section;
    assert Normalize(py, value).fields == value.fields;
  }

  /** Such a model is normal too, and all but the status is the model's own. */
  lemma OverlaidIsNormal(py: Printer, model: Json, canonical: Json)
    ensures var overlaid := WithCanonicalStatus(py, model, canonical);
            && Normalize(py, overlaid) == overlaid
            && forall name :: Get(overlaid, name) ==
                 if name == CollectionStatus then Get(Normalize(py, canonical), name) else Get(Normalize(py, model), name)
  {
    hide Section, Normalize, SECTIONS;
    NormalFields(py, model);
    NormalFields(py, canonical);
    NormalIfSettled(py, WithCanonicalStatus(py, model, canonical));
  }

  // ----- every field is read from its own place -----

  /** A string or a list of strings that is as it should be. */
  predicate NormalText(py: Printer, value: Json) { StringValue(py, value) == value }

  predicate NormalList(py: Printer, value: Json) { StringList(py, value) == value }

  /** A feature with normal fields, whatever they hold, is read back field by field. */
  lemma FeatureFields(py: Printer, name: Json, description: Json, trigger: Json, logic: Json, inputs: Json,
                      outputs: Json,
                      exceptions: Json)
    requires NormalText(py, name) && NormalText(py, description) && NormalText(py, trigger) && NormalText(py, logic)
    requires NormalList(py, inputs) && NormalList(py, outputs) && NormalList(py, exceptions)
    ensures var raw := Object(map[FeatureName := name, Description := description, Trigger := trigger, ProcessingLogic := logic,
                                  Inputs := inputs, Outputs := outputs, ExceptionCases := exceptions]);
            Feature(py, raw) == raw
  {
    hide StringValue, StringList;
  }

  lemma PageFields(py: Printer, name: Json, entry: Json, elements: Json, actions: Json)
    requires NormalText(py, name) && NormalText(py, entry) && NormalList(py, elements) && NormalList(py, actions)
    ensures var raw := Object(map[PageName := name, EntryPoint := entry, PageElements := elements, ButtonActions := actions]);
            Page(py, raw) == raw
  {
    hide StringValue, StringList;
  }

  /** So is every section of two strings or two lists. */
  lemma PlainSectionFields(py: Printer, a: Json, b: Json, c: Json, d: Json)
    requires NormalText(py, a) && NormalText(py, b) && NormalList(py, c) && NormalList(py, d)
    ensures var value := Object(map[ProjectName := a, RequirementName := b]); Section(py, DocumentInfo, value) == value
    ensures var value := Object(map[Summary := a, Objective := b]); Section(py, Background, value) == value
    ensures var value := Object(map[InScope := c, OutOfScope := d]); Section(py, Scope, value) == value
    ensures var value := Object(map[TargetUsers := c, CoreScenarios := d]); Section(py, UsersAndScenarios, value) == value
  {
    hide StringValue, StringList;
  }

  /** The sections of features and pages, and a status. */
  lemma OtherSectionFields(py: Printer, text: Json, other: Json, entries: Json, list: Json)
    requires NormalText(py, text) && NormalText(py, other) && NormalList(py, list)
    ensures NormalFeatures(py, entries) == entries ==>
              var value := Object(map[Overview := text, FeatureDetails := entries]);
              Section(py, FunctionalRequirements, value) == value
    ensures NormalPages(py, entries) == entries ==>
              var value := Object(map[Pages := entries, InteractionFlow := list]);
              Section(py, PageAndInteraction, value) == value
    ensures StatusValue(py, text) == text.text ==>
              var value := Object(map[StatusName := text, Reason := other, PendingQuestions := list]);
              StatusItem(py, value) == value
  {
    hide StringValue, StringList, NormalFeatures, NormalPages, StatusValue;
    StringValueAgain(py, text);
  }

  /** A model is built section by section, each from the section of the same name. */
  lemma SectionsAreKept(py: Printer, payload: Json, name: Name)
    ensures name in SECTIONS ==> Get(Normalize(py, payload), name) == Section(py, name, Get(payload, name))
    ensures name in ITEMS ==> forall value ::
              Get(Section(py, CollectionStatus, value), name) == StatusItem(py, Get(value, name))
  {
    hide Section, StatusItem;
    CollectionIs(py);
  }

  lemma CollectionIs(py: Printer)
    ensures forall value :: Section(py, CollectionStatus, value) == CollectionSection(py, value)
  {
  }
}
