/** The `remove` command of the command-line app: its argument scanner, its
    strict size parser and its own Gmail query builder. The clock is a
    parameter: `daysAgo(d)` is the ISO-8601 timestamp `d` days before now. */
module RemoveCommand {
  import opened Wrappers
  import opened Text
  import opened JsNumber
  import opened SizeSyntax
  import GmailQuery
  import ConfigSchema

  // ----- sizes -----

  /** `parseSize` of the command: lower-cased, nothing else allowed around
      or inside the literal; 0 for anything it does not recognise. */
  function ParseSize(size: string): (r: nat) {
    match Lex(Lower(size), false)
    case None => 0
    case Some(lit) => ByteCount(lit)
  }

  /** The strict parser accepts a literal only without any white space in it,
      and then agrees with the Gmail adapter's lenient parser. */
  lemma StrictSizeAgrees(size: string)
    requires Lex(Lower(size), false).Some?
    ensures exists lit :: WellFormed(lit) && Lower(size) == Render(lit, [])
    ensures GmailQuery.ParseSize(size) == ParseSize(size)
  {
    var t := Lower(size);
    var lit := Lex(t, false).value;
    LexSound(t, false);
    assert t == Render(lit, []);
    GmailQuery.ParseSizeIgnoresCase(size);
    GmailQuery.ParseSizeOfPlainLiteral(lit);
  }

  /** Every literal written without spaces is read as its value, in either
      case. */
  lemma StrictSizeOfLiteral(lit: SizeLiteral)
    requires WellFormed(lit)
    ensures ParseSize(Render(lit, [])) == ByteCount(lit)
  {
    GmailQuery.RenderLower(lit, []);
    LowerNoUpper(Render(lit, []));
    LexRender(lit, [], false);
  }

  // ----- arguments -----

  /** The options `parseArgs` builds. Flags that are only ever set to true
      are booleans; `limit` starts at 100. */
  datatype RemoveOptions = RemoveOptions(
    olderThan: Option<JsInt>,
    labels: Option<seq<string>>,
    largerThan: Option<string>,
    from: Option<string>,
    unread: bool,
    read: bool,
    dryRun: bool,
    limit: JsInt)

  const Defaults := RemoveOptions(None, None, None, None, false, false, false, Int(100))

  /** The option names `parseArgs` recognises. */
  datatype Flag = OlderThan | Label | LargerThan | From | Unread | Read | DryRun | Limit | NotAFlag

  function FlagOf(arg: string): Flag {
    if arg == "--older-than" then OlderThan
    else if arg == "--label" then Label
    else if arg == "--larger-than" then LargerThan
    else if arg == "--from" then From
    else if arg == "--unread" then Unread
    else if arg == "--read" then Read
    else if arg == "--dry-run" then DryRun
    else if arg == "--limit" then Limit
    else NotAFlag
  }

  /** `args[i + 1]` is truthy: present and not empty. */
  predicate HasValue(args: seq<string>, i: nat) {
    i + 1 < |args| && args[i + 1] != ""
  }

  /** The options that take the argument after them as their value. */
  predicate TakesValue(flag: Flag) {
    flag in {OlderThan, Label, LargerThan, From, Limit}
  }

  /** Where the round after the one at position `i` starts: past the value
      of an option that takes one and has one, else at the next argument. */
  function Next(args: seq<string>, i: nat): (r: nat)
    requires i < |args|
    ensures i < r <= |args|
  {
    if TakesValue(FlagOf(args[i])) && HasValue(args, i) then i + 2 else i + 1
  }

  /** One round of the scanning loop at position `i`: where the next round
      starts and the options after this one. */
  function Step(args: seq<string>, i: nat, opts: RemoveOptions): (r: (nat, RemoveOptions))
    requires i < |args|
    ensures r.0 == Next(args, i)
  {
    var flag := FlagOf(args[i]);
    if flag == OlderThan && HasValue(args, i) then (i + 2, opts.(olderThan := Some(ParseInt(args[i + 1]))))
    else if flag == Label && HasValue(args, i) then (i + 2, opts.(labels := Some(opts.labels.GetOr([]) + [args[i + 1]])))
    else if flag == LargerThan && HasValue(args, i) then (i + 2, opts.(largerThan := Some(args[i + 1])))
    else if flag == From && HasValue(args, i) then (i + 2, opts.(from := Some(args[i + 1])))
    else if flag == Unread then (i + 1, opts.(unread := true))
    else if flag == Read then (i + 1, opts.(read := true))
    else if flag == DryRun then (i + 1, opts.(dryRun := true))
    else if flag == Limit && HasValue(args, i) then (i + 2, opts.(limit := ParseInt(args[i + 1])))
    else (i + 1, opts)
  }

  /** The options after scanning `args` from position `i` on. */
  function Scan(args: seq<string>, i: nat, opts: RemoveOptions): RemoveOptions
    decreases |args| - i
  {
    if i >= |args| then opts
    else
      var (next, o) := Step(args, i, opts);
      Scan(args, next, o)
  }

  /** `parseArgs` */
  method ParseArgs(args: seq<string>) returns (opts: RemoveOptions)
    ensures opts == Scan(args, 0, Defaults)
  {
    opts := Defaults;
    var i := 0;
    while i < |args|
      invariant 0 <= i <= |args|
      invariant Scan(args, i, opts) == Scan(args, 0, Defaults)
      decreases |args| - i
    {
      ghost var (next, o) := Step(args, i, opts);
      assert Scan(args, i, opts) == Scan(args, next, o);
      var flag := FlagOf(args[i]);
      if flag == OlderThan && HasValue(args, i) {
        i := i + 1;
        opts := opts.(olderThan := Some(ParseInt(args[i])));
      } else if flag == Label && HasValue(args, i) {
        i := i + 1;
        opts := opts.(labels := Some(opts.labels.GetOr([]) + [args[i]]));
      } else if flag == LargerThan && HasValue(args, i) {
        i := i + 1;
        opts := opts.(largerThan := Some(args[i]));
      } else if flag == From && HasValue(args, i) {
        i := i + 1;
        opts := opts.(from := Some(args[i]));
      } else if flag == Unread {
        opts := opts.(unread := true);
      } else if flag == Read {
        opts := opts.(read := true);
      } else if flag == DryRun {
        opts := opts.(dryRun := true);
      } else if flag == Limit && HasValue(args, i) {
        i := i + 1;
        opts := opts.(limit := ParseInt(args[i]));
      }
      i := i + 1;
      assert i == next && opts == o;
    }
  }

  /** `flag` does not occur in `args` from position `i` on. */
  predicate Absent(args: seq<string>, i: nat, flag: Flag) {
    forall j :: i <= j < |args| ==> FlagOf(args[j]) != flag
  }

  /** One round changes an option only when its flag is at that position. */
  lemma StepUntouched(args: seq<string>, i: nat, opts: RemoveOptions)
    requires i < |args|
    ensures var o := Step(args, i, opts).1;
            var flag := FlagOf(args[i]);
            && (flag != OlderThan ==> o.olderThan == opts.olderThan)
            && (flag != Label ==> o.labels == opts.labels)
            && (flag != LargerThan ==> o.largerThan == opts.largerThan)
            && (flag != From ==> o.from == opts.from)
            && (flag != Limit ==> o.limit == opts.limit)
  {
  }

  /** An option keeps its value unless its flag occurs among the arguments
      still to be scanned. */
  lemma {:induction false} UntouchedOptions(args: seq<string>, i: nat, opts: RemoveOptions)
    ensures var r := Scan(args, i, opts);
            && (Absent(args, i, OlderThan) ==> r.olderThan == opts.olderThan)
            && (Absent(args, i, Label) ==> r.labels == opts.labels)
            && (Absent(args, i, LargerThan) ==> r.largerThan == opts.largerThan)
            && (Absent(args, i, From) ==> r.from == opts.from)
            && (Absent(args, i, Limit) ==> r.limit == opts.limit)
    decreases |args| - i
  {
    if i < |args| {
      var (next, o) := Step(args, i, opts);
      StepUntouched(args, i, opts);
      UntouchedOptions(args, next, o);
      assert Scan(args, i, opts) == Scan(args, next, o);
      forall flag | Absent(args, i, flag) ensures Absent(args, next, flag) {
      }
    }
  }

  /** Without `--limit`, the limit stays at 100. */
  lemma DefaultLimit(args: seq<string>)
    requires Absent(args, 0, Limit)
    ensures Scan(args, 0, Defaults).limit == Int(100)
  {
    UntouchedOptions(args, 0, Defaults);
  }

  /** A flag is never turned off again. */
  lemma {:induction false} FlagsStaySet(args: seq<string>, i: nat, opts: RemoveOptions)
    ensures var r := Scan(args, i, opts);
            (opts.unread ==> r.unread) && (opts.read ==> r.read) && (opts.dryRun ==> r.dryRun)
    decreases |args| - i
  {
    if i < |args| {
      FlagsStaySet(args, Step(args, i, opts).0, Step(args, i, opts).1);
    }
  }

  /** Labels are only ever appended: those collected so far stay, in order,
      at the front, and every later one is the value after a `--label`. */
  lemma {:induction false} LabelsAccumulate(args: seq<string>, i: nat, opts: RemoveOptions)
    ensures var r := Scan(args, i, opts);
            var before := opts.labels.GetOr([]);
            var after := r.labels.GetOr([]);
            && (opts.labels.Some? ==> r.labels.Some?)
            && |before| <= |after| && after[..|before|] == before
            && forall k :: |before| <= k < |after| ==>
                 exists j :: i < j < |args| && FlagOf(args[j - 1]) == Label && args[j] == after[k]
    decreases |args| - i
  {
    if i < |args| {
      var (next, o) := Step(args, i, opts);
      LabelsAccumulate(args, next, o);
      var before := opts.labels.GetOr([]);
      var mid := o.labels.GetOr([]);
      var after := Scan(args, next, o).labels.GetOr([]);
      if FlagOf(args[i]) == Label && HasValue(args, i) {
        assert mid == before + [args[i + 1]];
        assert after[..|mid|] == mid;
        assert after[..|before|] == mid[..|before|];
        forall k | |before| <= k < |after|
          ensures exists j :: i < j < |args| && FlagOf(args[j - 1]) == Label && args[j] == after[k]
        {
          if k == |before| {
            assert after[k] == mid[k];
            assert FlagOf(args[i]) == Label && args[i + 1] == after[k];
          }
        }
      } else {
        assert mid == before;
      }
    }
  }

  /** The values given to `--label` from position `i` on, in order. */
  function LabelValues(args: seq<string>, i: nat): seq<string>
    decreases |args| - i
  {
    if i >= |args| then []
    else (if FlagOf(args[i]) == Label && HasValue(args, i) then [args[i + 1]] else []) + LabelValues(args, Next(args, i))
  }

  /** Labels accumulate in the order given: the options end up with the
      labels they had followed by every value given to `--label`, and have
      labels at all only when they had some or one was given. */
  lemma {:induction false} LabelsInOrder(args: seq<string>, i: nat, opts: RemoveOptions)
    ensures Scan(args, i, opts).labels ==
      if opts.labels.None? && LabelValues(args, i) == [] then None
      else Some(opts.labels.GetOr([]) + LabelValues(args, i))
    decreases |args| - i
  {
    if i < |args| {
      var next := Next(args, i);
      var o := Step(args, i, opts).1;
      assert Scan(args, i, opts) == Scan(args, next, o);
      LabelsInOrder(args, next, o);
      LabelStep(args, i, opts);
      if FlagOf(args[i]) == Label && HasValue(args, i) {
        var v := args[i + 1];
        assert opts.labels.GetOr([]) + LabelValues(args, i) == (opts.labels.GetOr([]) + [v]) + LabelValues(args, next);
      } else {
        assert LabelValues(args, i) == LabelValues(args, next);
      }
    } else {
      assert opts.labels.GetOr([]) + [] == opts.labels.GetOr([]);
    }
  }

  /** One round adds the value after a `--label` to the labels, and the
      values given to `--label` from there on start with it. */
  lemma LabelStep(args: seq<string>, i: nat, opts: RemoveOptions)
    requires i < |args|
    ensures var o := Step(args, i, opts).1;
      var v := if FlagOf(args[i]) == Label && HasValue(args, i) then [args[i + 1]] else [];
      && LabelValues(args, i) == v + LabelValues(args, Next(args, i))
      && o.labels == if v == [] then opts.labels else Some(opts.labels.GetOr([]) + v)
  {
    StepUntouched(args, i, opts);
  }

  /** The last value given to `flag` from position `i` on, if any. */
  function Given(args: seq<string>, i: nat, flag: Flag): Option<string>
    decreases |args| - i
  {
    if i >= |args| then None
    else
      var later := Given(args, Next(args, i), flag);
      if later.Some? then later
      else if FlagOf(args[i]) == flag && HasValue(args, i) then Some(args[i + 1])
      else None
  }

  /** Whether `flag` stands at a position the scan visits, from `i` on. */
  predicate Seen(args: seq<string>, i: nat, flag: Flag)
    decreases |args| - i
  {
    i < |args| && (FlagOf(args[i]) == flag || Seen(args, Next(args, i), flag))
  }

  /** The last value wins: an option given a value ends up with the last one
      given (`--older-than` and `--limit` read as integers), and an option
      not given one keeps its value. */
  lemma {:induction false} LastValueWins(args: seq<string>, i: nat, opts: RemoveOptions)
    ensures var r := Scan(args, i, opts);
      var older := Given(args, i, OlderThan);
      var larger := Given(args, i, LargerThan);
      var from := Given(args, i, From);
      var limit := Given(args, i, Limit);
      && r.olderThan == (if older.Some? then Some(ParseInt(older.value)) else opts.olderThan)
      && r.largerThan == (if larger.Some? then larger else opts.largerThan)
      && r.from == (if from.Some? then from else opts.from)
      && r.limit == (if limit.Some? then ParseInt(limit.value) else opts.limit)
    decreases |args| - i
  {
    if i < |args| {
      var (next, o) := Step(args, i, opts);
      StepUntouched(args, i, opts);
      LastValueWins(args, next, o);
      assert Scan(args, i, opts) == Scan(args, next, o);
    }
  }

  /** A switch is on after the scan exactly when it was on before or occurs
      at a position the scan visits. */
  lemma {:induction false} SwitchesSeen(args: seq<string>, i: nat, opts: RemoveOptions)
    ensures var r := Scan(args, i, opts);
      && r.unread == (opts.unread || Seen(args, i, Unread))
      && r.read == (opts.read || Seen(args, i, Read))
      && r.dryRun == (opts.dryRun || Seen(args, i, DryRun))
    decreases |args| - i
  {
    if i < |args| {
      var (next, o) := Step(args, i, opts);
      SwitchesSeen(args, next, o);
      assert Scan(args, i, opts) == Scan(args, next, o);
    }
  }

  /** An option name right after a value-taking option is consumed as its
      value. */
  lemma OptionAsValue(value: string)
    requires FlagOf(value) == Unread
    ensures Scan(["--from", value], 0, Defaults) == Defaults.(from := Some(value))
  {
    var args := ["--from", value];
    assert FlagOf(args[0]) == From;
    assert Step(args, 0, Defaults) == (2, Defaults.(from := Some(value)));
  }

  /** A value-taking option at the end, without its value, is ignored. */
  lemma DanglingOption(option: string)
    requires FlagOf(option) in {OlderThan, Label, LargerThan, From, Limit}
    ensures Scan([option], 0, Defaults) == Defaults
  {
    assert Step([option], 0, Defaults) == (1, Defaults);
  }

  // ----- the query -----

  /** On a timestamp whose date part has no `T` and is followed by one, the
      command's `split('T')[0]` and the adapter's `slice(0, 10)` agree. */
  lemma DateCutsAgree(iso: string)
    requires |iso| > 10 && iso[10] == 'T'
    requires forall k :: 0 <= k < 10 ==> iso[k] != 'T'
    ensures BeforeChar(iso, 'T') == Prefix(iso, 10)
  {
    var r := BeforeChar(iso, 'T');
    assert |r| == 10;
  }

  function AgeTerms(o: RemoveOptions, daysAgo: int -> string): seq<string> {
    if o.olderThan.Some? && o.olderThan.value.Truthy() then
      ["before:" + ReplaceChar(BeforeChar(daysAgo(o.olderThan.value.value), 'T'), '-', '/')]
    else []
  }

  function SizeBound(o: RemoveOptions): nat {
    if Truthy(o.largerThan) then ParseSize(o.largerThan.value) else 0
  }

  function SizeTerms(o: RemoveOptions): seq<string> {
    if SizeBound(o) > 0 then ["larger:" + NatToString(SizeBound(o))] else []
  }

  function FromTerms(o: RemoveOptions): seq<string> {
    if Truthy(o.from) then ["from:" + o.from.value] else []
  }

  function UnreadTerms(o: RemoveOptions): seq<string> {
    if o.unread then ["is:unread"] else []
  }

  function ReadTerms(o: RemoveOptions): seq<string> {
    if o.read then ["is:read"] else []
  }

  /** The search terms of the options, in the order the command emits them. */
  function Terms(o: RemoveOptions, daysAgo: int -> string): seq<string> {
    AgeTerms(o, daysAgo) + GmailQuery.LabelTerms(o.labels.GetOr([])) + SizeTerms(o)
    + FromTerms(o) + UnreadTerms(o) + ReadTerms(o)
  }

  /** `buildQuery` */
  method BuildQuery(opts: RemoveOptions, daysAgo: int -> string) returns (query: string)
    ensures query == GmailQuery.Query(Terms(opts, daysAgo))
  {
    var parts: seq<string> := [];
    if opts.olderThan.Some? && opts.olderThan.value.Truthy() {
      parts := parts + ["before:" + ReplaceChar(BeforeChar(daysAgo(opts.olderThan.value.value), 'T'), '-', '/')];
    }
    assert parts == AgeTerms(opts, daysAgo);
    if opts.labels.Some? && |opts.labels.value| > 0 {
      parts := GmailQuery.PushLabels(parts, opts.labels.value);
    } else {
      assert GmailQuery.LabelTerms(opts.labels.GetOr([])) == [];
    }
    assert parts == AgeTerms(opts, daysAgo) + GmailQuery.LabelTerms(opts.labels.GetOr([]));
    ghost var prev := parts;
    if Truthy(opts.largerThan) {
      var bytes := ParseSize(opts.largerThan.value);
      if bytes > 0 {
        parts := parts + ["larger:" + NatToString(bytes)];
      }
    }
    assert parts == prev + SizeTerms(opts);
    parts := PushSenderAndFlags(parts, opts);
    assert parts == Terms(opts, daysAgo);
    query := GmailQuery.Query(parts);
  }

  /** The pushes of the sender and read-state terms. */
  method PushSenderAndFlags(parts: seq<string>, opts: RemoveOptions) returns (out: seq<string>)
    ensures out == parts + FromTerms(opts) + UnreadTerms(opts) + ReadTerms(opts)
  {
    out := parts;
    if Truthy(opts.from) {
      out := out + ["from:" + opts.from.value];
    }
    assert out == parts + FromTerms(opts);
    ghost var prev := out;
    if opts.unread {
      out := out + ["is:unread"];
    }
    assert out == prev + UnreadTerms(opts);
    prev := out;
    if opts.read {
      out := out + ["is:read"];
    }
    assert out == prev + ReadTerms(opts);
  }

  lemma PiecesGood(o: RemoveOptions, daysAgo: int -> string)
    ensures GmailQuery.AllGood(AgeTerms(o, daysAgo)) && GmailQuery.AllGood(SizeTerms(o))
  {
    if o.olderThan.Some? && o.olderThan.value.Truthy() {
      GmailQuery.PrefixedGood("before:", ReplaceChar(BeforeChar(daysAgo(o.olderThan.value.value), 'T'), '-', '/'));
    }
    if SizeBound(o) > 0 { GmailQuery.PrefixedGood("larger:", NatToString(SizeBound(o))); }
  }

  lemma SenderAndFlagsGood(o: RemoveOptions)
    ensures GmailQuery.AllGood(FromTerms(o)) && GmailQuery.AllGood(UnreadTerms(o)) && GmailQuery.AllGood(ReadTerms(o))
  {
    if Truthy(o.from) { GmailQuery.PrefixedGood("from:", o.from.value); }
    GmailQuery.FlagsGood();
  }

  lemma TermsGood(o: RemoveOptions, daysAgo: int -> string)
    ensures GmailQuery.AllGood(Terms(o, daysAgo))
  {
    var labels := o.labels.GetOr([]);
    PiecesGood(o, daysAgo);
    SenderAndFlagsGood(o);
    GmailQuery.LabelTermsGood(labels);
    var t1 := AgeTerms(o, daysAgo) + GmailQuery.LabelTerms(labels);
    GmailQuery.AllGoodAppend(AgeTerms(o, daysAgo), GmailQuery.LabelTerms(labels));
    var t2 := t1 + SizeTerms(o);
    GmailQuery.AllGoodAppend(t1, SizeTerms(o));
    var t3 := t2 + FromTerms(o);
    GmailQuery.AllGoodAppend(t2, FromTerms(o));
    var t4 := t3 + UnreadTerms(o);
    GmailQuery.AllGoodAppend(t3, UnreadTerms(o));
    GmailQuery.AllGoodAppend(t4, ReadTerms(o));
  }

  /** The query is the whole inbox exactly when the options ask for nothing
      it can express. */
  lemma InboxWhenUnconstrained(o: RemoveOptions, daysAgo: int -> string)
    ensures GmailQuery.Query(Terms(o, daysAgo)) == "in:inbox"
            <==> !(o.olderThan.Some? && o.olderThan.value.Truthy()) && o.labels.GetOr([]) == []
                 && SizeBound(o) == 0 && !Truthy(o.from) && !o.unread && !o.read
  {
    TermsGood(o, daysAgo);
    GmailQuery.QueryOfTerms(Terms(o, daysAgo));
  }

  /** The command's own query asks Gmail for exactly what the adapter's
      builder would for the same constraints, once the date cut and the size
      text agree. */
  lemma SameQueryAsAdapter(o: RemoveOptions, f: ConfigSchema.EmailFilter,
                           daysAgo: int -> string, isoFor: real -> string)
    requires f.olderThan == (if o.olderThan.Some? && o.olderThan.value.Int? then Some(o.olderThan.value.value as real) else None)
    requires o.olderThan.Some? && o.olderThan.value.Truthy()
             ==> Prefix(isoFor(o.olderThan.value.value as real), 10) == BeforeChar(daysAgo(o.olderThan.value.value), 'T')
    requires f.labels == o.labels && f.from == o.from && f.subject == None
    requires f.largerThan == o.largerThan && (Truthy(o.largerThan) ==> Lex(Lower(o.largerThan.value), false).Some?)
    requires f.unread == Some(o.unread) && f.read == Some(o.read)
    ensures GmailQuery.Terms(f, isoFor) == Terms(o, daysAgo)
  {
    SameSizeTerms(o, f);
    var front := AgeTerms(o, daysAgo) + GmailQuery.LabelTerms(o.labels.GetOr([])) + SizeTerms(o) + FromTerms(o);
    assert GmailQuery.AgeTerms(f, isoFor) == AgeTerms(o, daysAgo);
    assert GmailQuery.FromTerms(f) == FromTerms(o);
    assert GmailQuery.SubjectTerms(f) == [];
    assert GmailQuery.UnreadTerms(f) == UnreadTerms(o);
    assert GmailQuery.ReadTerms(f) == ReadTerms(o);
    assert front + [] == front;
    calc {
      GmailQuery.Terms(f, isoFor);
      front + [] + UnreadTerms(o) + ReadTerms(o);
      Terms(o, daysAgo);
    }
  }

  lemma SameSizeTerms(o: RemoveOptions, f: ConfigSchema.EmailFilter)
    requires f.largerThan == o.largerThan && (Truthy(o.largerThan) ==> Lex(Lower(o.largerThan.value), false).Some?)
    ensures GmailQuery.SizeTerms(f) == SizeTerms(o)
  {
    if Truthy(o.largerThan) {
      StrictSizeAgrees(o.largerThan.value);
    }
    assert GmailQuery.SizeBound(f) == SizeBound(o);
  }
}
