/** The Gmail adapter's query helpers: the lenient size parser and the
    translation of an email filter into a Gmail search query. The clock is a
    parameter: `daysAgo(d)` is the ISO-8601 timestamp of the moment `d` days
    before now. */
module GmailQuery {
  import opened Wrappers
  import opened Text
  import opened SizeSyntax
  import opened ConfigSchema

  /** `parseSize` of the Gmail adapter: lower-cased and trimmed, white space
      allowed between number and unit, 0 for anything it does not recognise. */
  function ParseSize(size: string): (r: nat) {
    if size == "" then 0
    else
      match Lex(Trim(Lower(size)), true)
      case None => 0
      case Some(lit) => ByteCount(lit)
  }

  /** Upper- and lower-case spellings of a size mean the same. */
  lemma ParseSizeIgnoresCase(size: string)
    ensures ParseSize(Lower(size)) == ParseSize(size)
  {
    LowerIdempotent(size);
  }

  /** A rendered literal neither starts nor ends with white space. */
  lemma RenderEnds(lit: SizeLiteral, spaces: string)
    requires WellFormed(lit)
    requires spaces == [] || lit.unit != Bytes
    ensures var t := Render(lit, spaces); t != [] && !IsJsSpace(t[0]) && !IsJsSpace(t[|t| - 1])
  {
    var t := Render(lit, spaces);
    var unit := UnitText(lit.unit);
    assert t == lit.whole + PointText(lit.fraction) + spaces + unit;
    assert t[0] == lit.whole[0];
    if lit.unit != Bytes {
      assert t[|t| - 1] == unit[|unit| - 1];
    } else if lit.fraction != [] {
      assert t == lit.whole + "." + lit.fraction;
      assert t[|t| - 1] == lit.fraction[|lit.fraction| - 1];
    } else {
      assert t == lit.whole;
    }
  }

  /** A rendered literal has no upper-case letter. */
  lemma RenderLower(lit: SizeLiteral, spaces: string)
    requires WellFormed(lit) && AllSpace(spaces)
    ensures NoUpper(Render(lit, spaces))
  {
    var unit := UnitText(lit.unit);
    assert NoUpper(unit) by {
      match lit.unit
      case Bytes =>
      case KB =>
      case MB =>
      case GB =>
    }
    NoUpperAppend(spaces, unit);
    NoUpperAppend(PointText(lit.fraction), spaces + unit);
    NoUpperAppend(lit.whole, PointText(lit.fraction) + (spaces + unit));
  }

  /** Every literal the size syntax describes is read as its value, with
      white space around it and between number and unit. */
  lemma ParseSizeOfLiteral(w1: string, lit: SizeLiteral, spaces: string, w2: string)
    requires WellFormed(lit) && AllSpace(w1) && AllSpace(w2) && AllSpace(spaces)
    requires spaces == [] || lit.unit != Bytes
    ensures ParseSize(w1 + Render(lit, spaces) + w2) == ByteCount(lit)
  {
    var t := Render(lit, spaces);
    RenderEnds(lit, spaces);
    RenderLower(lit, spaces);
    assert NoUpper(w1) && NoUpper(w2);
    NoUpperAppend(w1, t);
    NoUpperAppend(w1 + t, w2);
    LowerNoUpper(w1 + t + w2);
    TrimSurrounded(w1, t, w2);
    LexRender(lit, spaces, true);
  }

  /** A literal written without spaces is read as its value. */
  lemma ParseSizeOfPlainLiteral(lit: SizeLiteral)
    requires WellFormed(lit)
    ensures ParseSize(Render(lit, [])) == ByteCount(lit)
  {
    var t := Render(lit, []);
    RenderEnds(lit, []);
    RenderLower(lit, []);
    LowerNoUpper(t);
    TrimUnchanged(t);
    LexRender(lit, [], true);
  }

  /** Whatever is read as a positive size is a literal of the size syntax,
      up to case and surrounding white space. */
  lemma ParseSizePositive(size: string)
    requires ParseSize(size) > 0
    ensures var lit := Lex(Trim(Lower(size)), true);
            lit.Some? && ParseSize(size) == ByteCount(lit.value)
            && exists spaces :: AllSpace(spaces) && Trim(Lower(size)) == Render(lit.value, spaces)
  {
    var t := Trim(Lower(size));
    LexSound(t, true);
  }

  // ----- the search query -----

  /** A label name as a Gmail search term: slashes and spaces become dashes. */
  function LabelTerm(name: string): string {
    "label:" + ReplaceChar(ReplaceChar(name, '/', '-'), ' ', '-')
  }

  /** The term keeps every character of the name except slashes and spaces,
      which it turns into dashes, so it holds neither. */
  lemma LabelTermSanitizes(name: string)
    ensures var t := LabelTerm(name);
            StartsWith(t, "label:") && |t| == 6 + |name|
            && forall i :: 0 <= i < |name| ==>
                 t[6 + i] == (if name[i] == '/' || name[i] == ' ' then '-' else name[i])
  {
  }

  function LabelTerms(labels: seq<string>): (r: seq<string>)
    ensures |r| == |labels|
  {
    seq(|labels|, i requires 0 <= i < |labels| => LabelTerm(labels[i]))
  }

  /** `before:` and the calendar date of an ISO-8601 timestamp, with slashes. */
  function BeforeTerm(iso: string): string {
    "before:" + ReplaceChar(Prefix(iso, 10), '-', '/')
  }

  predicate TruthyNumber(x: Option<real>) { x.Some? && x.value != 0.0 }

  predicate IsTrue(b: Option<bool>) { b == Some(true) }

  /** The size a filter asks for, 0 when it asks for none. */
  function SizeBound(f: EmailFilter): nat {
    if Truthy(f.largerThan) then ParseSize(f.largerThan.value) else 0
  }

  function AgeTerms(f: EmailFilter, daysAgo: real -> string): seq<string> {
    if TruthyNumber(f.olderThan) then [BeforeTerm(daysAgo(f.olderThan.value))] else []
  }

  function SizeTerms(f: EmailFilter): seq<string> {
    if SizeBound(f) > 0 then ["larger:" + NatToString(SizeBound(f))] else []
  }

  function FromTerms(f: EmailFilter): seq<string> {
    if Truthy(f.from) then ["from:" + f.from.value] else []
  }

  function SubjectTerms(f: EmailFilter): seq<string> {
    if Truthy(f.subject) then ["subject:" + f.subject.value] else []
  }

  function UnreadTerms(f: EmailFilter): seq<string> {
    if IsTrue(f.unread) then ["is:unread"] else []
  }

  function ReadTerms(f: EmailFilter): seq<string> {
    if IsTrue(f.read) then ["is:read"] else []
  }

  /** The search terms of a filter, in the order the adapter emits them. */
  function Terms(f: EmailFilter, daysAgo: real -> string): seq<string> {
    AgeTerms(f, daysAgo) + LabelTerms(f.labels.GetOr([])) + SizeTerms(f)
    + FromTerms(f) + SubjectTerms(f) + UnreadTerms(f) + ReadTerms(f)
  }

  /** The terms joined by spaces, or the whole inbox when that is empty. */
  function Query(terms: seq<string>): string {
    var joined := Join(terms, " ");
    if joined == "" then "in:inbox" else joined
  }

  /** `buildGmailQuery` */
  method BuildGmailQuery(filter: EmailFilter, daysAgo: real -> string) returns (query: string)
    ensures query == Query(Terms(filter, daysAgo))
  {
    var parts: seq<string> := [];
    if TruthyNumber(filter.olderThan) {
      parts := parts + [BeforeTerm(daysAgo(filter.olderThan.value))];
    }
    assert parts == AgeTerms(filter, daysAgo);
    if filter.labels.Some? && |filter.labels.value| > 0 {
      parts := PushLabels(parts, filter.labels.value);
    } else {
      assert LabelTerms(filter.labels.GetOr([])) == [];
    }
    assert parts == AgeTerms(filter, daysAgo) + LabelTerms(filter.labels.GetOr([]));
    if Truthy(filter.largerThan) {
      var bytes := ParseSize(filter.largerThan.value);
      if bytes > 0 {
        parts := parts + ["larger:" + NatToString(bytes)];
      }
    }
    assert parts == AgeTerms(filter, daysAgo) + LabelTerms(filter.labels.GetOr([])) + SizeTerms(filter);
    parts := PushSenderAndFlags(parts, filter);
    query := Query(parts);
  }

  /** The `for` loop over the filter's labels. */
  method PushLabels(parts: seq<string>, labels: seq<string>) returns (out: seq<string>)
    ensures out == parts + LabelTerms(labels)
  {
    out := parts;
    for i := 0 to |labels|
      invariant out == parts + LabelTerms(labels[..i])
    {
      assert LabelTerms(labels[..i + 1]) == LabelTerms(labels[..i]) + [LabelTerm(labels[i])];
      out := out + [LabelTerm(labels[i])];
    }
    assert labels[..|labels|] == labels;
  }

  /** The pushes of the sender, subject and read-state terms. */
  method PushSenderAndFlags(parts: seq<string>, filter: EmailFilter) returns (out: seq<string>)
    ensures out == parts + FromTerms(filter) + SubjectTerms(filter) + UnreadTerms(filter) + ReadTerms(filter)
  {
    out := parts;
    if Truthy(filter.from) {
      out := out + ["from:" + filter.from.value];
    }
    assert out == parts + FromTerms(filter);
    ghost var prev := out;
    if Truthy(filter.subject) {
      out := out + ["subject:" + filter.subject.value];
    }
    assert out == prev + SubjectTerms(filter);
    prev := out;
    if IsTrue(filter.unread) {
      out := out + ["is:unread"];
    }
    assert out == prev + UnreadTerms(filter);
    prev := out;
    if IsTrue(filter.read) {
      out := out + ["is:read"];
    }
    assert out == prev + ReadTerms(filter);
  }

  /** A term of the query: never empty, never the inbox default's `in:`. */
  predicate GoodTerm(t: string) { |t| >= 3 && !(t[0] == 'i' && t[1] == 'n' && t[2] == ':') }

  predicate AllGood(terms: seq<string>) { forall i :: 0 <= i < |terms| ==> GoodTerm(terms[i]) }

  lemma AllGoodAppend(a: seq<string>, b: seq<string>)
    requires AllGood(a) && AllGood(b)
    ensures AllGood(a + b)
  {
    forall i | 0 <= i < |a + b| ensures GoodTerm((a + b)[i]) {
      if i < |a| { assert (a + b)[i] == a[i]; } else { assert (a + b)[i] == b[i - |a|]; }
    }
  }

  lemma PrefixedGood(p: string, rest: string)
    requires GoodTerm(p)
    ensures GoodTerm(p + rest)
  {
    assert (p + rest)[0] == p[0] && (p + rest)[1] == p[1] && (p + rest)[2] == p[2];
  }

  lemma FrontGood(f: EmailFilter, daysAgo: real -> string)
    ensures AllGood(AgeTerms(f, daysAgo)) && AllGood(LabelTerms(f.labels.GetOr([]))) && AllGood(SizeTerms(f))
  {
    if TruthyNumber(f.olderThan) { PrefixedGood("before:", ReplaceChar(Prefix(daysAgo(f.olderThan.value), 10), '-', '/')); }
    LabelTermsGood(f.labels.GetOr([]));
    if SizeBound(f) > 0 { PrefixedGood("larger:", NatToString(SizeBound(f))); }
  }

  lemma LabelTermsGood(labels: seq<string>)
    ensures AllGood(LabelTerms(labels))
  {
    forall i | 0 <= i < |labels| ensures GoodTerm(LabelTerms(labels)[i]) {
      PrefixedGood("label:", ReplaceChar(ReplaceChar(labels[i], '/', '-'), ' ', '-'));
    }
  }

  lemma BackGood(f: EmailFilter)
    ensures AllGood(FromTerms(f)) && AllGood(SubjectTerms(f)) && AllGood(UnreadTerms(f)) && AllGood(ReadTerms(f))
  {
    if Truthy(f.from) { PrefixedGood("from:", f.from.value); }
    if Truthy(f.subject) { PrefixedGood("subject:", f.subject.value); }
    FlagsGood();
  }

  lemma FlagsGood()
    ensures GoodTerm("is:unread") && GoodTerm("is:read")
  {
  }

  lemma TermsGood(f: EmailFilter, daysAgo: real -> string)
    ensures AllGood(Terms(f, daysAgo))
  {
    FrontGood(f, daysAgo);
    BackGood(f);
    var t1 := AgeTerms(f, daysAgo) + LabelTerms(f.labels.GetOr([]));
    AllGoodAppend(AgeTerms(f, daysAgo), LabelTerms(f.labels.GetOr([])));
    var t2 := t1 + SizeTerms(f);
    AllGoodAppend(t1, SizeTerms(f));
    var t3 := t2 + FromTerms(f);
    AllGoodAppend(t2, FromTerms(f));
    var t4 := t3 + SubjectTerms(f);
    AllGoodAppend(t3, SubjectTerms(f));
    var t5 := t4 + UnreadTerms(f);
    AllGoodAppend(t4, UnreadTerms(f));
    AllGoodAppend(t5, ReadTerms(f));
  }

  /** A filter that constrains nothing the query can express. */
  predicate Unconstrained(f: EmailFilter) {
    !TruthyNumber(f.olderThan) && f.labels.GetOr([]) == [] && SizeBound(f) == 0
    && !Truthy(f.from) && !Truthy(f.subject) && !IsTrue(f.unread) && !IsTrue(f.read)
  }

  /** Joined non-empty terms are never empty. */
  lemma JoinNonEmpty(terms: seq<string>)
    requires terms != [] && terms[0] != ""
    ensures Join(terms, " ") != ""
  {
    JoinStartsWithFirst(terms, " ");
  }

  /** Of well-formed terms, the query is the inbox default exactly when
      there are none, and otherwise it starts with the first term. */
  lemma QueryOfTerms(terms: seq<string>)
    requires AllGood(terms)
    ensures Query(terms) == "in:inbox" <==> terms == []
    ensures terms != [] ==> Query(terms) == Join(terms, " ") && StartsWith(Query(terms), terms[0])
  {
    if terms != [] {
      assert GoodTerm(terms[0]);
      JoinNonEmpty(terms);
      JoinStartsWithFirst(terms, " ");
      var j := Join(terms, " ");
      assert j != "in:inbox" by {
        assert j[..|terms[0]|] == terms[0];
        assert j[0] == terms[0][0] && j[1] == terms[0][1] && j[2] == terms[0][2];
      }
    }
  }

  /** Every well-formed term occurs in the query. */
  lemma QueryContainsTerm(terms: seq<string>, k: nat)
    requires AllGood(terms) && k < |terms|
    ensures Contains(Query(terms), terms[k])
  {
    QueryOfTerms(terms);
    JoinContains(terms, " ", k);
  }

  /** The query falls back to the whole inbox exactly when the filter
      constrains nothing. */
  lemma InboxWhenUnconstrained(f: EmailFilter, daysAgo: real -> string)
    ensures Query(Terms(f, daysAgo)) == "in:inbox" <==> Unconstrained(f)
  {
    TermsGood(f, daysAgo);
    QueryOfTerms(Terms(f, daysAgo));
  }

  /** Every label of the filter is searched for. */
  lemma QueryNamesEveryLabel(f: EmailFilter, daysAgo: real -> string, k: nat)
    requires f.labels.Some? && k < |f.labels.value|
    ensures Contains(Query(Terms(f, daysAgo)), LabelTerm(f.labels.value[k]))
  {
    var terms := Terms(f, daysAgo);
    var front := AgeTerms(f, daysAgo) + LabelTerms(f.labels.value);
    var offset := |AgeTerms(f, daysAgo)|;
    assert front[offset + k] == LabelTerm(f.labels.value[k]);
    var x := offset + k;
    var t3 := front + SizeTerms(f);
    assert t3[x] == front[x];
    var t4 := t3 + FromTerms(f);
    assert t4[x] == front[x];
    var t5 := t4 + SubjectTerms(f);
    assert t5[x] == front[x];
    var t6 := t5 + UnreadTerms(f);
    assert t6[x] == front[x];
    assert terms == t6 + ReadTerms(f);
    assert terms[x] == front[x];
    TermsGood(f, daysAgo);
    QueryContainsTerm(terms, offset + k);
  }

  /** An age limit comes first in the query. */
  lemma QueryStartsWithAge(f: EmailFilter, daysAgo: real -> string)
    requires TruthyNumber(f.olderThan)
    ensures StartsWith(Query(Terms(f, daysAgo)), "before:")
  {
    var terms := Terms(f, daysAgo);
    TermsGood(f, daysAgo);
    QueryOfTerms(terms);
    var q := Query(terms);
    assert q[..|terms[0]|] == terms[0];
    assert q[..7] == terms[0][..7];
  }
}
