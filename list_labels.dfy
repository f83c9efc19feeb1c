/** The `labels` command, in both copies (src/cli/commands/list-labels.ts and
    apps/cli/src/commands/list-labels.ts): it keeps the user's own labels of
    the provider's listing, sorts them by name in place and prints one line
    per label followed by their total. The collation of `localeCompare` is a
    parameter: `le(a, b)` holds when `a.localeCompare(b) <= 0`. */
module ListLabels {
  import opened Wrappers
  import opened Text
  import opened Errors
  import opened Mail

  const SystemLabels: seq<string> :=
    ["INBOX", "SENT", "DRAFT", "TRASH", "SPAM", "STARRED", "UNREAD", "IMPORTANT", "CHAT", "YELLOW_STAR"]
  const CategoryPrefix := "CATEGORY_"

  /** A label the user made: not one of Gmail's category tabs and not one of
      the ten system labels. */
  predicate IsUserLabel(name: string) {
    !StartsWith(name, CategoryPrefix) && name !in SystemLabels
  }

  /** `labels.filter(l => ...)` over the listing, in its order. */
  function UserLabels(labels: seq<AppliedLabel>): seq<AppliedLabel> {
    if labels == [] then []
    else (if IsUserLabel(labels[0].name) then [labels[0]] else []) + UserLabels(labels[1..])
  }

  /** The filter keeps every user label as often as the listing has it, and
      nothing else. */
  lemma {:induction false} UserLabelsExactly(labels: seq<AppliedLabel>)
    ensures forall l :: multiset(UserLabels(labels))[l] == if IsUserLabel(l.name) then multiset(labels)[l] else 0
    ensures forall l :: l in UserLabels(labels) <==> l in labels && IsUserLabel(l.name)
  {
    if labels != [] {
      UserLabelsExactly(labels[1..]);
      assert labels == [labels[0]] + labels[1..];
    }
  }

  /** The collation is total and transitive, as `localeCompare` is. */
  ghost predicate TotalPreorder(le: (string, string) -> bool) {
    (forall a, b :: le(a, b) || le(b, a)) &&
    (forall a, b, c :: le(a, b) && le(b, c) ==> le(a, c))
  }

  predicate SortedByName(s: seq<AppliedLabel>, le: (string, string) -> bool) {
    forall i, j :: 0 <= i < j < |s| ==> le(s[i].name, s[j].name)
  }

  /** Part way through moving the label at `j` down: `s[..i + 1]` is sorted
      apart from position `j`, and the label at `j` collates before every
      label after it. */
  predicate SortedBut(s: seq<AppliedLabel>, i: nat, j: nat, le: (string, string) -> bool)
    requires j <= i < |s|
  {
    (forall k, m :: 0 <= k < m <= i && k != j && m != j ==> le(s[k].name, s[m].name)) &&
    (forall m :: j < m <= i ==> le(s[j].name, s[m].name))
  }

  /** Swapping the label at `j` with a predecessor that collates after it
      moves the gap one place down. */
  lemma SwapDown(s: seq<AppliedLabel>, i: nat, j: nat, le: (string, string) -> bool)
    requires TotalPreorder(le)
    requires 0 < j <= i < |s| && SortedBut(s, i, j, le) && !le(s[j - 1].name, s[j].name)
    ensures SortedBut(s[j - 1 := s[j]][j := s[j - 1]], i, j - 1, le)
  {
    var t := s[j - 1 := s[j]][j := s[j - 1]];
    assert le(s[j].name, s[j - 1].name);
    forall m | j - 1 < m <= i
      ensures le(t[j - 1].name, t[m].name)
    {
      if m > j {
        assert t[m] == s[m];
      }
    }
  }

  /** When the gap has reached the front, or its predecessor collates before
      it, the whole prefix is sorted. */
  lemma GapClosed(s: seq<AppliedLabel>, i: nat, j: nat, le: (string, string) -> bool)
    requires TotalPreorder(le)
    requires j <= i < |s| && SortedBut(s, i, j, le)
    requires j == 0 || le(s[j - 1].name, s[j].name)
    ensures SortedByName(s[..i + 1], le)
  {
    forall k, m | 0 <= k < m <= i
      ensures le(s[k].name, s[m].name)
    {
      if m == j && k < j - 1 {
        assert le(s[k].name, s[j - 1].name);
      }
    }
  }

  /** Exchanges `a[j - 1]` and `a[j]`. */
  method Swap(a: array<AppliedLabel>, j: nat)
    requires 0 < j < a.Length
    modifies a
    ensures a[..] == old(a[..])[j - 1 := old(a[j])][j := old(a[j - 1])]
    ensures multiset(a[..]) == multiset(old(a[..]))
  {
    a[j - 1], a[j] := a[j], a[j - 1];
  }

  /** One step of the in-place sort: the label at `i` moves down past every
      label that collates after it, leaving `a[..i + 1]` sorted. */
  method InsertAt(a: array<AppliedLabel>, i: nat, le: (string, string) -> bool)
    requires TotalPreorder(le)
    requires i < a.Length && SortedByName(a[..i], le)
    modifies a
    ensures SortedByName(a[..i + 1], le)
    ensures multiset(a[..]) == multiset(old(a[..]))
  {
    var j := i;
    assert SortedBut(a[..], i, j, le) by {
      forall k, m | 0 <= k < m <= i && k != j && m != j
        ensures le(a[..][k].name, a[..][m].name)
      {
        assert a[..i][k] == a[k] && a[..i][m] == a[m];
      }
    }
    while j > 0 && !le(a[j - 1].name, a[j].name)
      invariant 0 <= j <= i
      invariant multiset(a[..]) == multiset(old(a[..]))
      invariant SortedBut(a[..], i, j, le)
    {
      SwapDown(a[..], i, j, le);
      Swap(a, j);
      j := j - 1;
    }
    GapClosed(a[..], i, j, le);
    assert a[..][..i + 1] == a[..i + 1];
  }

  /** `userLabels.sort((a, b) => a.name.localeCompare(b.name))` */
  method SortByName(a: array<AppliedLabel>, le: (string, string) -> bool)
    requires TotalPreorder(le)
    modifies a
    ensures SortedByName(a[..], le)
    ensures multiset(a[..]) == multiset(old(a[..]))
  {
    for i := 0 to a.Length
      invariant SortedByName(a[..i], le)
      invariant multiset(a[..]) == multiset(old(a[..]))
    {
      InsertAt(a, i, le);
    }
    assert a[..a.Length] == a[..];
  }

  /** The loop printing one line per label, indented by two spaces. */
  method Lines(labels: seq<AppliedLabel>) returns (lines: seq<string>)
    ensures |lines| == |labels|
    ensures forall i :: 0 <= i < |labels| ==> lines[i] == "  " + labels[i].name
  {
    lines := [];
    for i := 0 to |labels|
      invariant |lines| == i
      invariant forall k :: 0 <= k < i ==> lines[k] == "  " + labels[k].name
    {
      lines := lines + ["  " + labels[i].name];
    }
  }

  /** The filter followed by the sort: exactly the user labels of the
      listing, as often as it has them, sorted by name. */
  method SortedUserLabels(labels: seq<AppliedLabel>, le: (string, string) -> bool)
    returns (sorted: seq<AppliedLabel>)
    requires TotalPreorder(le)
    ensures SortedByName(sorted, le)
    ensures multiset(sorted) == multiset(UserLabels(labels))
    ensures forall l :: l in sorted <==> l in labels && IsUserLabel(l.name)
  {
    var userLabels := UserLabels(labels);
    UserLabelsExactly(labels);
    var a := new AppliedLabel[|userLabels|](i requires 0 <= i < |userLabels| => userLabels[i]);
    assert a[..] == userLabels;
    SortByName(a, le);
    sorted := a[..];
    assert forall l :: l in sorted <==> l in multiset(sorted);
  }

  /** What the command shows: the sorted user labels, one line per label,
      and the total it reports. */
  datatype Listing = Listing(labels: seq<AppliedLabel>, lines: seq<string>, total: nat)

  /** The command run on the provider's answer to `listLabels()`: without
      tokens it throws before asking; a failed listing is passed on;
      otherwise the listing holds exactly the user labels, sorted by name,
      each printed indented by two spaces, and the total counts them. */
  method List(haveTokens: bool, listed: Result<seq<AppliedLabel>, Error>, le: (string, string) -> bool)
    returns (r: Result<Listing, Error>)
    requires TotalPreorder(le)
    ensures !haveTokens ==> r == Err(NoTokens)
    ensures haveTokens && listed.Err? ==> r == Err(listed.error)
    ensures r.Ok? ==> haveTokens && listed.Ok?
    ensures r.Ok? ==> SortedByName(r.value.labels, le)
    ensures r.Ok? ==> multiset(r.value.labels) == multiset(UserLabels(listed.value))
    ensures r.Ok? ==> forall l :: l in r.value.labels <==> l in listed.value && IsUserLabel(l.name)
    ensures r.Ok? ==> |r.value.lines| == |r.value.labels| == r.value.total
    ensures r.Ok? ==> forall i :: 0 <= i < |r.value.lines| ==> r.value.lines[i] == "  " + r.value.labels[i].name
  {
    if !haveTokens {
      return Err(NoTokens);
    }
    if listed.Err? {
      return Err(listed.error);
    }
    var sorted := SortedUserLabels(listed.value, le);
    var lines := Lines(sorted);
    assert |sorted| == |multiset(sorted)| == |UserLabels(listed.value)|;
    r := Ok(Listing(sorted, lines, |UserLabels(listed.value)|));
  }
}
