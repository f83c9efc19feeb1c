/** The configuration schemas (src/core/config/schema.ts; the label and
    cleanup-rule schemas are repeated word for word in
    packages/core/src/config/schema.ts). A configuration arrives as an
    untyped JavaScript value; each schema is a validity predicate on such a
    value, and parsing returns the typed record exactly when the value is
    valid, dropping the keys the schema does not know. */
module ConfigSchema {
  import opened Wrappers
  import opened Mail

  /** A regular-expression object; what it matches is left abstract. */
  datatype Regex = Regex(source: string, flags: string)

  /** An untyped JavaScript value as it reaches a schema. */
  datatype Value =
    | Undefined
    | Null
    | Bool(b: bool)
    | Num(n: real)
    | Str(s: string)
    | Arr(items: seq<Value>)
    | Obj(fields: map<string, Value>)
    | RegExpObj(re: Regex)

  /** `v[k]` for a plain object: `undefined` when the key is absent. */
  function Field(v: Value, k: string): Value
    requires v.Obj?
  {
    if k in v.fields then v.fields[k] else Undefined
  }

  // ----- typed records -----

  datatype CleanupRule = CleanupRule(labelName: string, retentionDays: real)

  datatype EmailFilter = EmailFilter(
    olderThan: Option<real>,
    labels: Option<seq<string>>,
    largerThan: Option<string>,
    from: Option<string>,
    subject: Option<string>,
    subjectRegex: Option<Regex>,
    snippetRegex: Option<Regex>,
    unread: Option<bool>,
    read: Option<bool>)

  /** A label rule is a filter whose `labels` is mandatory. */
  type LabelRule = EmailFilter

  datatype CoreConfig = CoreConfig(
    labels: seq<LabelDefinition>,
    cleanupRules: Option<seq<CleanupRule>>,
    autoTrashRules: Option<seq<EmailFilter>>,
    labelRules: Option<seq<LabelRule>>,
    classificationPrompt: Option<string>)

  datatype GmailCredentials = GmailCredentials(clientId: string, clientSecret: string)

  datatype Config = Config(core: CoreConfig, model: Value, gmail: GmailCredentials)

  // ----- what each schema accepts, on untyped values -----

  predicate IsStringArray(v: Value) {
    v.Arr? && forall i :: 0 <= i < |v.items| ==> v.items[i].Str?
  }

  predicate OptionalString(v: Value) { v.Undefined? || v.Str? }

  predicate OptionalBool(v: Value) { v.Undefined? || v.Bool? }

  predicate OptionalStringArray(v: Value) { v.Undefined? || IsStringArray(v) }

  predicate OptionalRegExp(v: Value) { v.Undefined? || v.RegExpObj? }

  /** `labelColorSchema` */
  predicate IsLabelColor(v: Value) {
    v.Obj? && Field(v, "backgroundColor").Str? && Field(v, "textColor").Str?
  }

  /** `labelSchema` */
  predicate IsLabel(v: Value) {
    && v.Obj?
    && Field(v, "name").Str?
    && Field(v, "description").Str?
    && IsLabelColor(Field(v, "color"))
    && OptionalStringArray(Field(v, "keywords"))
  }

  /** `cleanupRuleSchema` */
  predicate IsCleanupRule(v: Value) {
    && v.Obj?
    && Field(v, "label").Str?
    && Field(v, "retentionDays").Num?
    && Field(v, "retentionDays").n > 0.0
  }

  predicate OptionalPositive(v: Value) { v.Undefined? || (v.Num? && v.n > 0.0) }

  /** The fields `emailFilterSchema` and `labelRuleSchema` share. */
  predicate FilterFieldsOk(v: Value)
    requires v.Obj?
  {
    && OptionalPositive(Field(v, "olderThan"))
    && OptionalString(Field(v, "largerThan"))
    && OptionalString(Field(v, "from"))
    && OptionalString(Field(v, "subject"))
    && OptionalRegExp(Field(v, "subjectRegex"))
    && OptionalRegExp(Field(v, "snippetRegex"))
    && OptionalBool(Field(v, "unread"))
    && OptionalBool(Field(v, "read"))
  }

  /** `emailFilterSchema` */
  predicate IsEmailFilter(v: Value) {
    v.Obj? && FilterFieldsOk(v) && OptionalStringArray(Field(v, "labels"))
  }

  /** `labelRuleSchema`: the filter with a mandatory, non-empty `labels`. */
  predicate IsLabelRule(v: Value) {
    v.Obj? && FilterFieldsOk(v) && IsStringArray(Field(v, "labels")) && |Field(v, "labels").items| >= 1
  }

  predicate AllLabels(items: seq<Value>) { forall i :: 0 <= i < |items| ==> IsLabel(items[i]) }
  predicate AllCleanupRules(items: seq<Value>) { forall i :: 0 <= i < |items| ==> IsCleanupRule(items[i]) }
  predicate AllFilters(items: seq<Value>) { forall i :: 0 <= i < |items| ==> IsEmailFilter(items[i]) }
  predicate AllLabelRules(items: seq<Value>) { forall i :: 0 <= i < |items| ==> IsLabelRule(items[i]) }

  /** `coreConfigSchema` */
  predicate IsCoreConfig(v: Value) {
    && v.Obj?
    && Field(v, "labels").Arr? && |Field(v, "labels").items| >= 1 && AllLabels(Field(v, "labels").items)
    && (Field(v, "cleanupRules").Undefined?
        || (Field(v, "cleanupRules").Arr? && AllCleanupRules(Field(v, "cleanupRules").items)))
    && (Field(v, "autoTrashRules").Undefined?
        || (Field(v, "autoTrashRules").Arr? && AllFilters(Field(v, "autoTrashRules").items)))
    && (Field(v, "labelRules").Undefined?
        || (Field(v, "labelRules").Arr? && AllLabelRules(Field(v, "labelRules").items)))
    && OptionalString(Field(v, "classificationPrompt"))
  }

  predicate IsGmailCredentials(v: Value) {
    v.Obj? && Field(v, "clientId").Str? && Field(v, "clientSecret").Str?
  }

  /** `configSchema`: the core schema plus Gmail credentials; `model` may be
      any value, `undefined` included. */
  predicate IsConfig(v: Value) {
    IsCoreConfig(v) && IsGmailCredentials(Field(v, "gmail"))
  }

  // ----- what the typed records must satisfy -----

  predicate ValidCleanupRule(r: CleanupRule) { r.retentionDays > 0.0 }

  predicate ValidFilter(f: EmailFilter) { f.olderThan.Some? ==> f.olderThan.value > 0.0 }

  predicate ValidLabelRule(f: LabelRule) {
    ValidFilter(f) && f.labels.Some? && |f.labels.value| >= 1
  }

  predicate ValidCoreConfig(c: CoreConfig) {
    && |c.labels| >= 1
    && (c.cleanupRules.Some? ==> forall i :: 0 <= i < |c.cleanupRules.value| ==> ValidCleanupRule(c.cleanupRules.value[i]))
    && (c.autoTrashRules.Some? ==> forall i :: 0 <= i < |c.autoTrashRules.value| ==> ValidFilter(c.autoTrashRules.value[i]))
    && (c.labelRules.Some? ==> forall i :: 0 <= i < |c.labelRules.value| ==> ValidLabelRule(c.labelRules.value[i]))
  }

  // ----- parsing: the typed record of a valid value -----

  function Strings(items: seq<Value>): (r: seq<string>)
    requires forall i :: 0 <= i < |items| ==> items[i].Str?
    ensures |r| == |items| && forall i :: 0 <= i < |items| ==> r[i] == items[i].s
  {
    if items == [] then [] else [items[0].s] + Strings(items[1..])
  }

  function OptStr(v: Value): Option<string> { if v.Str? then Some(v.s) else None }
  function OptBool(v: Value): Option<bool> { if v.Bool? then Some(v.b) else None }
  function OptNum(v: Value): Option<real> { if v.Num? then Some(v.n) else None }
  function OptRegex(v: Value): Option<Regex> { if v.RegExpObj? then Some(v.re) else None }

  function OptStrings(v: Value): Option<seq<string>>
    requires OptionalStringArray(v)
  {
    if v.Arr? then Some(Strings(v.items)) else None
  }

  function LabelOf(v: Value): LabelDefinition
    requires IsLabel(v)
  {
    var c := Field(v, "color");
    LabelDefinition(Field(v, "name").s, Field(v, "description").s,
      LabelColor(Field(c, "backgroundColor").s, Field(c, "textColor").s),
      OptStrings(Field(v, "keywords")))
  }

  /** `labelSchema.safeParse` */
  function ParseLabel(v: Value): (r: Option<LabelDefinition>)
    ensures r.Some? <==> IsLabel(v)
  {
    if IsLabel(v) then Some(LabelOf(v)) else None
  }

  /** `cleanupRuleSchema.safeParse`; an accepted rule keeps more than zero days. */
  function ParseCleanupRule(v: Value): (r: Option<CleanupRule>)
    ensures r.Some? <==> IsCleanupRule(v)
    ensures r.Some? ==> ValidCleanupRule(r.value) && r.value.labelName == Field(v, "label").s
  {
    if IsCleanupRule(v) then Some(CleanupRule(Field(v, "label").s, Field(v, "retentionDays").n)) else None
  }

  function FilterOf(v: Value): (f: EmailFilter)
    requires v.Obj? && FilterFieldsOk(v) && OptionalStringArray(Field(v, "labels"))
    ensures ValidFilter(f)
  {
    EmailFilter(OptNum(Field(v, "olderThan")), OptStrings(Field(v, "labels")),
      OptStr(Field(v, "largerThan")), OptStr(Field(v, "from")), OptStr(Field(v, "subject")),
      OptRegex(Field(v, "subjectRegex")), OptRegex(Field(v, "snippetRegex")),
      OptBool(Field(v, "unread")), OptBool(Field(v, "read")))
  }

  /** `emailFilterSchema.safeParse` */
  function ParseFilter(v: Value): (r: Option<EmailFilter>)
    ensures r.Some? <==> IsEmailFilter(v)
    ensures r.Some? ==> ValidFilter(r.value)
  {
    if IsEmailFilter(v) then Some(FilterOf(v)) else None
  }

  /** `labelRuleSchema.safeParse` */
  function ParseLabelRule(v: Value): (r: Option<LabelRule>)
    ensures r.Some? <==> IsLabelRule(v)
    ensures r.Some? ==> ValidLabelRule(r.value)
  {
    if IsLabelRule(v) then Some(FilterOf(v)) else None
  }

  function LabelsOf(items: seq<Value>): (r: seq<LabelDefinition>)
    requires AllLabels(items)
    ensures |r| == |items| && forall i :: 0 <= i < |items| ==> r[i] == LabelOf(items[i])
  {
    if items == [] then [] else [LabelOf(items[0])] + LabelsOf(items[1..])
  }

  function CleanupRulesOf(items: seq<Value>): (r: seq<CleanupRule>)
    requires AllCleanupRules(items)
    ensures |r| == |items|
    ensures forall i :: 0 <= i < |items| ==> Some(r[i]) == ParseCleanupRule(items[i])
  {
    if items == [] then [] else [ParseCleanupRule(items[0]).value] + CleanupRulesOf(items[1..])
  }

  function FiltersOf(items: seq<Value>): (r: seq<EmailFilter>)
    requires forall i :: 0 <= i < |items| ==> items[i].Obj? && FilterFieldsOk(items[i]) && OptionalStringArray(Field(items[i], "labels"))
    ensures |r| == |items| && forall i :: 0 <= i < |items| ==> r[i] == FilterOf(items[i])
  {
    if items == [] then [] else [FilterOf(items[0])] + FiltersOf(items[1..])
  }

  function CoreConfigOf(v: Value): CoreConfig
    requires IsCoreConfig(v)
  {
    var cr := Field(v, "cleanupRules");
    var at := Field(v, "autoTrashRules");
    var lr := Field(v, "labelRules");
    CoreConfig(
      LabelsOf(Field(v, "labels").items),
      if cr.Arr? then Some(CleanupRulesOf(cr.items)) else None,
      if at.Arr? then Some(FiltersOf(at.items)) else None,
      if lr.Arr? then Some(FiltersOf(lr.items)) else None,
      OptStr(Field(v, "classificationPrompt")))
  }

  /** `coreConfigSchema.safeParse`: what it accepts is a configuration with at
      least one label whose rules all keep their constraints. */
  function ParseCoreConfig(v: Value): (r: Option<CoreConfig>)
    ensures r.Some? <==> IsCoreConfig(v)
    ensures r.Some? ==> ValidCoreConfig(r.value)
  {
    if IsCoreConfig(v) then
      var c := CoreConfigOf(v);
      assert c.labelRules.Some? ==> forall i :: 0 <= i < |c.labelRules.value| ==> ValidLabelRule(c.labelRules.value[i]) by {
        var lr := Field(v, "labelRules");
        if lr.Arr? {
          forall i | 0 <= i < |lr.items| ensures ValidLabelRule(FiltersOf(lr.items)[i]) {
            assert IsLabelRule(lr.items[i]);
          }
        }
      }
      Some(c)
    else None
  }

  /** `configSchema.safeParse`, as the command-line front end calls it. */
  function ParseConfig(v: Value): (r: Option<Config>)
    ensures r.Some? <==> IsConfig(v)
    ensures r.Some? ==> ValidCoreConfig(r.value.core) && r.value.model == Field(v, "model")
  {
    if IsConfig(v) then
      var g := Field(v, "gmail");
      Some(Config(ParseCoreConfig(v).value, Field(v, "model"),
                  GmailCredentials(Field(g, "clientId").s, Field(g, "clientSecret").s)))
    else None
  }

  // ----- encoding typed records as values, and the round trips -----

  function StrValues(s: seq<string>): (r: seq<Value>)
    ensures |r| == |s| && forall i :: 0 <= i < |s| ==> r[i] == Str(s[i])
  {
    if s == [] then [] else [Str(s[0])] + StrValues(s[1..])
  }

  lemma {:induction false} StringsOfStrValues(s: seq<string>)
    ensures Strings(StrValues(s)) == s
  {
    var v := StrValues(s);
    var r := Strings(v);
    assert |r| == |s|;
    forall i | 0 <= i < |s| ensures r[i] == s[i] {
      assert v[i] == Str(s[i]);
    }
  }

  function LabelValue(l: LabelDefinition): Value {
    var m := map["name" := Str(l.name), "description" := Str(l.description),
                 "color" := Obj(map["backgroundColor" := Str(l.color.backgroundColor),
                                    "textColor" := Str(l.color.textColor)])];
    Obj(if l.keywords.Some? then m["keywords" := Arr(StrValues(l.keywords.value))] else m)
  }

  /** Every typed label is accepted back unchanged. */
  lemma LabelRoundTrip(l: LabelDefinition)
    ensures ParseLabel(LabelValue(l)) == Some(l)
  {
    var v := LabelValue(l);
    assert Field(v, "name") == Str(l.name);
    assert Field(v, "description") == Str(l.description);
    if l.keywords.Some? {
      assert Field(v, "keywords") == Arr(StrValues(l.keywords.value));
      StringsOfStrValues(l.keywords.value);
    } else {
      assert Field(v, "keywords") == Undefined;
    }
  }

  function CleanupRuleValue(r: CleanupRule): Value {
    Obj(map["label" := Str(r.labelName), "retentionDays" := Num(r.retentionDays)])
  }

  /** A rule is accepted back exactly when it keeps a positive retention. */
  lemma CleanupRuleRoundTrip(r: CleanupRule)
    ensures ParseCleanupRule(CleanupRuleValue(r)) == if ValidCleanupRule(r) then Some(r) else None
  {
    var v := CleanupRuleValue(r);
    assert Field(v, "label") == Str(r.labelName);
    assert Field(v, "retentionDays") == Num(r.retentionDays);
  }

  /** The entry a typed filter contributes under key `k`, if any. */
  function FilterEntry(f: EmailFilter, k: string): Option<Value> {
    if k == "olderThan" then (if f.olderThan.Some? then Some(Num(f.olderThan.value)) else None)
    else if k == "labels" then (if f.labels.Some? then Some(Arr(StrValues(f.labels.value))) else None)
    else if k == "largerThan" then (if f.largerThan.Some? then Some(Str(f.largerThan.value)) else None)
    else if k == "from" then (if f.from.Some? then Some(Str(f.from.value)) else None)
    else if k == "subject" then (if f.subject.Some? then Some(Str(f.subject.value)) else None)
    else if k == "subjectRegex" then (if f.subjectRegex.Some? then Some(RegExpObj(f.subjectRegex.value)) else None)
    else if k == "snippetRegex" then (if f.snippetRegex.Some? then Some(RegExpObj(f.snippetRegex.value)) else None)
    else if k == "unread" then (if f.unread.Some? then Some(Bool(f.unread.value)) else None)
    else if k == "read" then (if f.read.Some? then Some(Bool(f.read.value)) else None)
    else None
  }

  const FilterKeys: set<string> :=
    {"olderThan", "labels", "largerThan", "from", "subject", "subjectRegex", "snippetRegex", "unread", "read"}

  function FilterValue(f: EmailFilter): Value {
    Obj(map k | k in FilterKeys && FilterEntry(f, k).Some? :: FilterEntry(f, k).value)
  }

  lemma FilterValueField(f: EmailFilter, k: string)
    requires k in FilterKeys
    ensures Field(FilterValue(f), k) == FilterEntry(f, k).GetOr(Undefined)
  {
  }

  /** The value of a typed filter holds each field under its key. */
  lemma FilterFields(f: EmailFilter)
    ensures var v := FilterValue(f);
      && Field(v, "olderThan") == (if f.olderThan.Some? then Num(f.olderThan.value) else Undefined)
      && Field(v, "labels") == (if f.labels.Some? then Arr(StrValues(f.labels.value)) else Undefined)
      && Field(v, "largerThan") == (if f.largerThan.Some? then Str(f.largerThan.value) else Undefined)
      && Field(v, "from") == (if f.from.Some? then Str(f.from.value) else Undefined)
      && Field(v, "subject") == (if f.subject.Some? then Str(f.subject.value) else Undefined)
      && Field(v, "subjectRegex") == (if f.subjectRegex.Some? then RegExpObj(f.subjectRegex.value) else Undefined)
      && Field(v, "snippetRegex") == (if f.snippetRegex.Some? then RegExpObj(f.snippetRegex.value) else Undefined)
      && Field(v, "unread") == (if f.unread.Some? then Bool(f.unread.value) else Undefined)
      && Field(v, "read") == (if f.read.Some? then Bool(f.read.value) else Undefined)
  {
    FilterValueField(f, "olderThan");
    FilterValueField(f, "labels");
    FilterValueField(f, "largerThan");
    FilterValueField(f, "from");
    FilterValueField(f, "subject");
    FilterValueField(f, "subjectRegex");
    FilterValueField(f, "snippetRegex");
    FilterValueField(f, "unread");
    FilterValueField(f, "read");
  }

  /** The filter schema accepts the value of a typed filter exactly when its
      `olderThan`, if any, is positive. */
  lemma FilterAccepted(f: EmailFilter)
    ensures IsEmailFilter(FilterValue(f)) <==> ValidFilter(f)
  {
    FilterFields(f);
  }

  /** The filter schema gives a valid filter back unchanged. */
  lemma FilterGivenBack(f: EmailFilter)
    requires ValidFilter(f)
    ensures IsEmailFilter(FilterValue(f)) && FilterOf(FilterValue(f)) == f
  {
    FilterFields(f);
    if f.labels.Some? { StringsOfStrValues(f.labels.value); }
  }

  /** A typed filter is accepted back unchanged exactly when its `olderThan`,
      if any, is positive. */
  lemma FilterRoundTrip(f: EmailFilter)
    ensures ParseFilter(FilterValue(f)) == if ValidFilter(f) then Some(f) else None
  {
    FilterAccepted(f);
    if ValidFilter(f) { FilterGivenBack(f); }
  }

  /** A label rule without labels, or with an empty list, is refused although
      the same value is a valid filter. */
  lemma LabelRuleNeedsLabels(f: EmailFilter)
    requires ValidFilter(f) && (f.labels.None? || f.labels.value == [])
    ensures ParseFilter(FilterValue(f)) == Some(f)
    ensures ParseLabelRule(FilterValue(f)).None?
  {
    FilterRoundTrip(f);
    FilterValueField(f, "labels");
  }

  // ----- whole configurations -----

  function LabelValues(ls: seq<LabelDefinition>): (r: seq<Value>)
    ensures |r| == |ls| && forall i :: 0 <= i < |ls| ==> r[i] == LabelValue(ls[i])
  {
    if ls == [] then [] else [LabelValue(ls[0])] + LabelValues(ls[1..])
  }

  function CleanupRuleValues(rs: seq<CleanupRule>): (r: seq<Value>)
    ensures |r| == |rs| && forall i :: 0 <= i < |rs| ==> r[i] == CleanupRuleValue(rs[i])
  {
    if rs == [] then [] else [CleanupRuleValue(rs[0])] + CleanupRuleValues(rs[1..])
  }

  function FilterValues(fs: seq<EmailFilter>): (r: seq<Value>)
    ensures |r| == |fs| && forall i :: 0 <= i < |fs| ==> r[i] == FilterValue(fs[i])
  {
    if fs == [] then [] else [FilterValue(fs[0])] + FilterValues(fs[1..])
  }

  function CoreConfigEntry(c: CoreConfig, k: string): Option<Value> {
    if k == "labels" then Some(Arr(LabelValues(c.labels)))
    else if k == "cleanupRules" then (if c.cleanupRules.Some? then Some(Arr(CleanupRuleValues(c.cleanupRules.value))) else None)
    else if k == "autoTrashRules" then (if c.autoTrashRules.Some? then Some(Arr(FilterValues(c.autoTrashRules.value))) else None)
    else if k == "labelRules" then (if c.labelRules.Some? then Some(Arr(FilterValues(c.labelRules.value))) else None)
    else if k == "classificationPrompt" then (if c.classificationPrompt.Some? then Some(Str(c.classificationPrompt.value)) else None)
    else None
  }

  const CoreConfigKeys: set<string> := {"labels", "cleanupRules", "autoTrashRules", "labelRules", "classificationPrompt"}

  function CoreConfigValue(c: CoreConfig): Value {
    Obj(map k | k in CoreConfigKeys && CoreConfigEntry(c, k).Some? :: CoreConfigEntry(c, k).value)
  }

  lemma CoreConfigValueField(c: CoreConfig, k: string)
    requires k in CoreConfigKeys
    ensures Field(CoreConfigValue(c), k) == CoreConfigEntry(c, k).GetOr(Undefined)
  {
  }

  lemma {:induction false} LabelsRoundTrip(ls: seq<LabelDefinition>)
    ensures AllLabels(LabelValues(ls)) && LabelsOf(LabelValues(ls)) == ls
  {
    var vs := LabelValues(ls);
    forall i | 0 <= i < |ls| ensures IsLabel(vs[i]) && LabelOf(vs[i]) == ls[i] {
      LabelRoundTrip(ls[i]);
    }
  }

  lemma {:induction false} CleanupRulesRoundTrip(rs: seq<CleanupRule>)
    ensures AllCleanupRules(CleanupRuleValues(rs)) <==> forall i :: 0 <= i < |rs| ==> ValidCleanupRule(rs[i])
    ensures AllCleanupRules(CleanupRuleValues(rs)) ==> CleanupRulesOf(CleanupRuleValues(rs)) == rs
  {
    var vs := CleanupRuleValues(rs);
    forall i | 0 <= i < |rs| ensures IsCleanupRule(vs[i]) <==> ValidCleanupRule(rs[i]) {
      CleanupRuleRoundTrip(rs[i]);
    }
    if AllCleanupRules(vs) {
      forall i | 0 <= i < |rs| ensures CleanupRulesOf(vs)[i] == rs[i] {
        CleanupRuleRoundTrip(rs[i]);
      }
    }
  }

  lemma {:induction false} FiltersRoundTrip(fs: seq<EmailFilter>)
    ensures AllFilters(FilterValues(fs)) <==> forall i :: 0 <= i < |fs| ==> ValidFilter(fs[i])
    ensures AllLabelRules(FilterValues(fs)) <==> forall i :: 0 <= i < |fs| ==> ValidLabelRule(fs[i])
    ensures AllFilters(FilterValues(fs)) ==> FiltersOf(FilterValues(fs)) == fs
  {
    var vs := FilterValues(fs);
    forall i | 0 <= i < |fs|
      ensures IsEmailFilter(vs[i]) <==> ValidFilter(fs[i])
      ensures IsLabelRule(vs[i]) <==> ValidLabelRule(fs[i])
      ensures IsEmailFilter(vs[i]) ==> FilterOf(vs[i]) == fs[i]
    {
      FilterRoundTrip(fs[i]);
      FilterValueField(fs[i], "labels");
      if fs[i].labels.Some? { assert |StrValues(fs[i].labels.value)| == |fs[i].labels.value|; }
    }
  }

  /** The value of a typed configuration holds each field under its key. */
  lemma CoreConfigFields(c: CoreConfig)
    ensures var v := CoreConfigValue(c);
      && Field(v, "labels") == Arr(LabelValues(c.labels))
      && Field(v, "cleanupRules") == (if c.cleanupRules.Some? then Arr(CleanupRuleValues(c.cleanupRules.value)) else Undefined)
      && Field(v, "autoTrashRules") == (if c.autoTrashRules.Some? then Arr(FilterValues(c.autoTrashRules.value)) else Undefined)
      && Field(v, "labelRules") == (if c.labelRules.Some? then Arr(FilterValues(c.labelRules.value)) else Undefined)
      && Field(v, "classificationPrompt") == (if c.classificationPrompt.Some? then Str(c.classificationPrompt.value) else Undefined)
  {
    CoreConfigValueField(c, "labels");
    CoreConfigValueField(c, "cleanupRules");
    CoreConfigValueField(c, "autoTrashRules");
    CoreConfigValueField(c, "labelRules");
    CoreConfigValueField(c, "classificationPrompt");
  }

  /** The core schema accepts the value of a typed configuration exactly when
      the configuration is valid: at least one label, positive retentions and
      ages, non-empty label-rule labels. */
  lemma CoreConfigAccepted(c: CoreConfig)
    ensures IsCoreConfig(CoreConfigValue(c)) <==> ValidCoreConfig(c)
  {
    var v := CoreConfigValue(c);
    CoreConfigFields(c);
    LabelsRoundTrip(c.labels);
    assert |Field(v, "labels").items| == |c.labels|;
    if c.cleanupRules.Some? { CleanupRulesRoundTrip(c.cleanupRules.value); }
    if c.autoTrashRules.Some? { FiltersRoundTrip(c.autoTrashRules.value); }
    if c.labelRules.Some? { FiltersRoundTrip(c.labelRules.value); }
  }

  /** The core schema gives a valid configuration back unchanged. */
  lemma CoreConfigGivenBack(c: CoreConfig)
    requires ValidCoreConfig(c)
    ensures IsCoreConfig(CoreConfigValue(c)) && CoreConfigOf(CoreConfigValue(c)) == c
  {
    CoreConfigAccepted(c);
    CoreConfigFields(c);
    LabelsRoundTrip(c.labels);
    if c.cleanupRules.Some? { CleanupRulesRoundTrip(c.cleanupRules.value); }
    if c.autoTrashRules.Some? { FiltersRoundTrip(c.autoTrashRules.value); }
    if c.labelRules.Some? {
      FiltersRoundTrip(c.labelRules.value);
      assert AllFilters(FilterValues(c.labelRules.value));
    }
  }

  /** The core schema accepts the value of a typed configuration exactly when
      the configuration is valid, and then gives it back unchanged. */
  lemma CoreConfigRoundTrip(c: CoreConfig)
    ensures ParseCoreConfig(CoreConfigValue(c)) == if ValidCoreConfig(c) then Some(c) else None
  {
    CoreConfigAccepted(c);
    if ValidCoreConfig(c) {
      CoreConfigGivenBack(c);
    }
  }
}
