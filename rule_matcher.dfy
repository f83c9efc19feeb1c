/** The local rule matcher (src/core/utils/filter.ts): does an already-fetched
    email satisfy a filter, and which label rule is the first to match.
    Regular-expression evaluation is left abstract: `test(re, text)` stands
    for `re.test(text)`. */
module RuleMatcher {
  import opened Wrappers
  import opened Text
  import opened Mail
  import opened ConfigSchema

  type RegexTest = (Regex, string) -> bool

  /** The `from` test: a `*@domain` pattern looks for `@domain` in the sender,
      any other pattern for itself; both sides lower-cased. */
  predicate FromMatches(sender: string, pattern: string) {
    var p := Lower(pattern);
    var from := Lower(sender);
    if StartsWith(p, "*@") then Contains(from, p[1..]) else Contains(from, p)
  }

  /** `matchesFilter`: every constraint the filter sets must hold. */
  predicate MatchesFilter(email: EmailSummary, filter: EmailFilter, test: RegexTest) {
    if Truthy(filter.from) && !FromMatches(email.from, filter.from.value) then false
    else if Truthy(filter.subject) && !Contains(Lower(email.subject), Lower(filter.subject.value)) then false
    else if filter.subjectRegex.Some? && !test(filter.subjectRegex.value, email.subject) then false
    else if filter.snippetRegex.Some? && !test(filter.snippetRegex.value, email.snippet) then false
    else true
  }

  const NoConstraint := EmailFilter(None, None, None, None, None, None, None, None, None)

  /** The filter that keeps only one of the matcher's four constraints. */
  function OnlyFrom(f: EmailFilter): EmailFilter { NoConstraint.(from := f.from) }
  function OnlySubject(f: EmailFilter): EmailFilter { NoConstraint.(subject := f.subject) }
  function OnlySubjectRegex(f: EmailFilter): EmailFilter { NoConstraint.(subjectRegex := f.subjectRegex) }
  function OnlySnippetRegex(f: EmailFilter): EmailFilter { NoConstraint.(snippetRegex := f.snippetRegex) }

  /** Constraints are combined with AND: a filter matches exactly when each of
      its single-constraint parts does. */
  lemma MatchesIsConjunction(e: EmailSummary, f: EmailFilter, test: RegexTest)
    ensures MatchesFilter(e, f, test) <==>
      MatchesFilter(e, OnlyFrom(f), test) && MatchesFilter(e, OnlySubject(f), test)
      && MatchesFilter(e, OnlySubjectRegex(f), test) && MatchesFilter(e, OnlySnippetRegex(f), test)
  {
  }

  /** A filter that sets nothing, or only empty strings, matches every email;
      the fields the provider evaluates (age, labels, size, read state) are
      ignored here. */
  lemma EmptyFilterMatchesAll(e: EmailSummary, f: EmailFilter, test: RegexTest)
    requires !Truthy(f.from) && !Truthy(f.subject) && f.subjectRegex.None? && f.snippetRegex.None?
    ensures MatchesFilter(e, f, test)
  {
  }

  /** A `*@domain` pattern matches exactly the senders whose lower-cased
      address contains `@` followed by the lower-cased domain. */
  lemma WildcardDomain(e: EmailSummary, f: EmailFilter, domain: string, test: RegexTest)
    requires f.from == Some("*@" + domain)
    ensures MatchesFilter(e, OnlyFrom(f), test) <==> Contains(Lower(e.from), "@" + Lower(domain))
  {
    var p := Lower("*@" + domain);
    LowerAppend("*@", domain);
    assert Lower("*@") == "*@";
    assert p == "*@" + Lower(domain);
    assert StartsWith(p, "*@");
    assert p[1..] == "@" + Lower(domain);
  }

  /** Any other `from` pattern is a case-insensitive substring test. */
  lemma PlainFrom(e: EmailSummary, f: EmailFilter, test: RegexTest)
    requires Truthy(f.from) && !StartsWith(Lower(f.from.value), "*@")
    ensures MatchesFilter(e, OnlyFrom(f), test) <==> Contains(Lower(e.from), Lower(f.from.value))
  {
  }

  /** The subject test is a case-insensitive substring test. */
  lemma SubjectSubstring(e: EmailSummary, f: EmailFilter, test: RegexTest)
    requires Truthy(f.subject)
    ensures MatchesFilter(e, OnlySubject(f), test) <==> Contains(Lower(e.subject), Lower(f.subject.value))
  {
  }

  /** An address at the domain matches the domain's wildcard, whatever the
      display name around it and whatever the case of either side. */
  lemma WildcardMatchesAddress(e: EmailSummary, f: EmailFilter, before: string, user: string,
                               domain: string, after: string, test: RegexTest)
    requires f.from == Some("*@" + domain)
    requires e.from == (before + user) + ("@" + domain) + after
    ensures MatchesFilter(e, OnlyFrom(f), test)
  {
    WildcardDomain(e, f, domain, test);
    LowerAround(before + user, "@" + domain, after);
    AtDomainLower(domain);
    ConcatOccurs(Lower(before + user), "@" + Lower(domain), Lower(after));
  }

  lemma LowerAround(x: string, y: string, z: string)
    ensures Lower(x + y + z) == Lower(x) + Lower(y) + Lower(z)
  {
    LowerAppend(x + y, z);
    LowerAppend(x, y);
  }

  lemma AtDomainLower(domain: string)
    ensures Lower("@" + domain) == "@" + Lower(domain)
  {
    LowerAppend("@", domain);
  }

  lemma ConcatOccurs(a: string, p: string, b: string)
    ensures OccursAt(a + p + b, p, |a|)
  {
    assert (a + p + b)[|a|..|a| + |p|] == p;
  }

  /** The index of the first rule, from `from` on, whose filter matches. */
  function FirstMatchFrom(e: EmailSummary, rules: seq<EmailFilter>, test: RegexTest, from: nat): (r: Option<nat>)
    requires from <= |rules|
    decreases |rules| - from
    ensures r.Some? ==> from <= r.value < |rules| && MatchesFilter(e, rules[r.value], test)
    ensures r.Some? ==> forall j :: from <= j < r.value ==> !MatchesFilter(e, rules[j], test)
    ensures r.None? ==> forall j :: from <= j < |rules| ==> !MatchesFilter(e, rules[j], test)
  {
    if from == |rules| then None
    else if MatchesFilter(e, rules[from], test) then Some(from)
    else FirstMatchFrom(e, rules, test, from + 1)
  }

  /** `findMatchingRule`: absent or empty rules give `undefined`; otherwise the
      first rule in declaration order that matches, and `undefined` exactly
      when none does. */
  function FindMatchingRule(e: EmailSummary, rules: Option<seq<EmailFilter>>, test: RegexTest): (r: Option<EmailFilter>)
    ensures (rules.None? || rules.value == []) ==> r.None?
    ensures r.None? ==> rules.None? || forall j :: 0 <= j < |rules.value| ==> !MatchesFilter(e, rules.value[j], test)
    ensures r.Some? ==> rules.Some? && MatchesFilter(e, r.value, test)
    ensures r.Some? ==> exists i :: 0 <= i < |rules.value| && rules.value[i] == r.value
                                 && forall j :: 0 <= j < i ==> !MatchesFilter(e, rules.value[j], test)
  {
    if rules.None? || |rules.value| == 0 then None
    else
      var i := FirstMatchFrom(e, rules.value, test, 0);
      if i.Some? then Some(rules.value[i.value]) else None
  }

  /** First match wins: when two rules both match, the earlier one is chosen. */
  lemma FirstMatchWins(e: EmailSummary, r1: EmailFilter, r2: EmailFilter, test: RegexTest)
    requires MatchesFilter(e, r1, test) && MatchesFilter(e, r2, test)
    ensures FindMatchingRule(e, Some([r1, r2]), test) == Some(r1)
  {
    assert FirstMatchFrom(e, [r1, r2], test, 0) == Some(0);
  }
}
