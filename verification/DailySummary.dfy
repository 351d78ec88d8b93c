/** The length-bounded daily report (utils/daily_report.py, render_summary). */
module DailySummary {
  import opened Collections

  const LIMIT := 2000

  /** A punishment step (none for a plain ban) and how many users it caught. */
  datatype Entry = Entry(step: Option<int>, count: nat)

  // -------------------------------------------------------------------------
  // Text
  // -------------------------------------------------------------------------

  function Digit(d: nat): char
    requires d < 10
  {
    "0123456789"[d]
  }

  function Decimal(n: nat): (s: string)
    ensures |s| > 0
  {
    if n < 10 then [Digit(n)] else Decimal(n / 10) + [Digit(n % 10)]
  }

  function Signed(n: int): string {
    if n < 0 then "-" + Decimal(-n) else Decimal(n)
  }

  /** UTF-16 code units. */
  function Units(s: string): nat {
    if |s| == 0 then 0 else Units(s[..|s| - 1]) + if s[|s| - 1] as int >= 0x10000 then 2 else 1
  }

  function Join(lines: seq<string>): string {
    if |lines| == 0 then ""
    else if |lines| == 1 then lines[0]
    else Join(lines[..|lines| - 1]) + "\n" + lines[|lines| - 1]
  }

  function Header(day: string, zone: string): string {
    "Daily bans \U{2014} " + day + " (" + zone + ")"
  }

  function Footer(total: int): string {
    "Total: " + Signed(total) + " users"
  }

  function Line(e: Entry): string {
    (if e.step.None? then "Plain ban" else "Step " + Signed(e.step.value + 1)) + ": " + Decimal(e.count) + " users"
  }

  function Sum(entries: seq<Entry>): nat {
    if |entries| == 0 then 0 else entries[0].count + Sum(entries[1..])
  }

  function Overflow(entries: seq<Entry>): string {
    "Other steps: " + Decimal(Sum(entries)) + " user/step counts"
  }

  // -------------------------------------------------------------------------
  // Lengths
  // -------------------------------------------------------------------------

  lemma {:induction false} UnitsAdd(a: string, b: string)
    ensures Units(a + b) == Units(a) + Units(b)
    decreases |b|
  {
    if |b| == 0 {
      assert a + b == a;
    } else {
      assert (a + b)[..|a + b| - 1] == a + b[..|b| - 1];
      UnitsAdd(a, b[..|b| - 1]);
    }
  }

  lemma {:induction false} DecimalIsPlain(n: nat)
    ensures Units(Decimal(n)) == |Decimal(n)|
  {
    var low := [Digit(n % 10)];
    assert low[..0] == [];
    if n >= 10 {
      DecimalIsPlain(n / 10);
      UnitsAdd(Decimal(n / 10), low);
    }
  }

  function DigitValue(c: char): nat {
    if '0' <= c <= '9' then c as int - '0' as int else 0
  }

  /** The number a decimal text stands for. */
  function Value(s: string): nat {
    if |s| == 0 then 0 else 10 * Value(s[..|s| - 1]) + DigitValue(s[|s| - 1])
  }

  /** A decimal reads back as its number, in digits only and without a leading zero. */
  lemma {:induction false} DecimalReadsBack(n: nat)
    ensures Value(Decimal(n)) == n
    ensures forall c <- Decimal(n) :: '0' <= c <= '9'
    ensures Decimal(n)[0] == '0' ==> n == 0
  {
    var s := Decimal(n);
    assert DigitValue(Digit(n % 10)) == n % 10;
    if n >= 10 {
      DecimalReadsBack(n / 10);
      assert s[..|s| - 1] == Decimal(n / 10);
    } else {
      assert s[..|s| - 1] == "" && s[|s| - 1] == Digit(n);
    }
  }

  /** Different totals and steps have different texts. */
  lemma SignedReadsBack(m: int, n: int)
    ensures Signed(m) == Signed(n) <==> m == n
  {
    SignReadsBack(m);
    SignReadsBack(n);
    if Signed(m) == Signed(n) && m < 0 {
      assert Signed(m)[1..] == Decimal(-m) && Signed(n)[1..] == Decimal(-n);
    }
  }

  lemma SignReadsBack(n: int)
    ensures |Signed(n)| > 0 && (Signed(n)[0] == '-' <==> n < 0)
    ensures Value(Decimal(if n < 0 then -n else n)) == if n < 0 then -n else n
  {
    var s := Decimal(if n < 0 then -n else n);
    DecimalReadsBack(if n < 0 then -n else n);
    assert s[0] in s;
  }

  /** A larger count never has a shorter decimal. */
  lemma {:induction false} DecimalGrows(m: nat, n: nat)
    requires m <= n
    ensures |Decimal(m)| <= |Decimal(n)|
    decreases n
  {
    if n >= 10 && m >= 10 {
      DecimalGrows(m / 10, n / 10);
    }
  }

  lemma {:induction false} SumFrom(entries: seq<Entry>, k: nat)
    requires k <= |entries|
    ensures Sum(entries[..k]) + Sum(entries[k..]) == Sum(entries)
    decreases k
  {
    if k == 0 {
      assert entries[..0] == [] && entries[0..] == entries;
    } else {
      assert entries[..k][1..] == entries[1..][..k - 1] && entries[k..] == entries[1..][k - 1..];
      SumFrom(entries[1..], k - 1);
    }
  }

  lemma OverflowUnits(entries: seq<Entry>)
    ensures Units(Overflow(entries)) == Units("Other steps: ") + |Decimal(Sum(entries))| + Units(" user/step counts")
  {
    hide Units;
    DecimalIsPlain(Sum(entries));
    UnitsAdd("Other steps: ", Decimal(Sum(entries)));
    UnitsAdd("Other steps: " + Decimal(Sum(entries)), " user/step counts");
  }

  lemma OverflowShrinks(entries: seq<Entry>, k: nat)
    requires k < |entries|
    ensures Units(Overflow(entries[k + 1..])) <= Units(Overflow(entries[k..]))
  {
    hide Units;
    assert entries[k..][1..] == entries[k + 1..];
    DecimalGrows(Sum(entries[k + 1..]), Sum(entries[k..]));
    OverflowUnits(entries[k..]);
    OverflowUnits(entries[k + 1..]);
  }

  function Width(lines: seq<string>): nat {
    Units(Join(lines))
  }

  lemma WidthAdds(lines: seq<string>, line: string)
    requires |lines| > 0
    ensures Width(lines + [line]) == Width(lines) + 1 + Units(line)
  {
    assert (lines + [line])[..|lines|] == lines;
    UnitsAdd(Join(lines), "\n");
    UnitsAdd(Join(lines) + "\n", line);
    assert Units("\n") == 1 by {
      assert "\n"[..0] == "";
    }
  }

  // -------------------------------------------------------------------------
  // The report
  // -------------------------------------------------------------------------

  function Lines(entries: seq<Entry>): (ls: seq<string>)
    ensures |ls| == |entries|
  {
    if |entries| == 0 then [] else Lines(entries[..|entries| - 1]) + [Line(entries[|entries| - 1])]
  }

  /** What is measured at position k: the lines so far, this one, the rest, the footer. */
  function Candidate(header: string, entries: seq<Entry>, k: nat, footer: string): seq<string>
    requires k < |entries|
  {
    [header] + Lines(entries[..k + 1]) + [Overflow(entries[k..])] + [footer]
  }

  /** The message that shows the first k entries. */
  function Shown(header: string, entries: seq<Entry>, k: nat, footer: string): seq<string>
    requires k <= |entries|
  {
    [header] + Lines(entries[..k]) + (if k < |entries| then [Overflow(entries[k..])] else []) + [footer]
  }

  predicate Fits(header: string, entries: seq<Entry>, k: nat, footer: string)
    requires k < |entries|
  {
    Width(Candidate(header, entries, k, footer)) <= LIMIT
  }

  lemma {:induction false} CandidateLeavesRoom(header: string, entries: seq<Entry>, k: nat, footer: string)
    requires k < |entries|
    ensures Width(Shown(header, entries, k + 1, footer)) <= Width(Candidate(header, entries, k, footer))
  {
    hide Units, Line, Overflow, Width;
    var shown := [header] + Lines(entries[..k + 1]);
    WidthAdds(shown, Overflow(entries[k..]));
    WidthAdds(shown + [Overflow(entries[k..])], footer);
    if k + 1 < |entries| {
      WidthAdds(shown, Overflow(entries[k + 1..]));
      WidthAdds(shown + [Overflow(entries[k + 1..])], footer);
      OverflowShrinks(entries, k);
    } else {
      assert shown + [] == shown;
      WidthAdds(shown, footer);
    }
  }

  /** Showing an entry before folding only makes a message longer than folding it. */
  lemma FoldedIsShorter(header: string, entries: seq<Entry>, footer: string)
    requires |entries| > 0
    ensures Width(Shown(header, entries, 0, footer)) <= Width(Candidate(header, entries, 0, footer))
  {
    hide Units, Line, Overflow, Width;
    assert entries[..0] == [] && entries[..1][..0] == [];
    var folded := Overflow(entries[0..]);
    assert [header] + Lines(entries[..0]) == [header];
    assert [header] + Lines(entries[..1]) == [header] + [Line(entries[0])];
    WidthAdds([header], folded);
    WidthAdds([header] + [folded], footer);
    WidthAdds([header], Line(entries[0]));
    WidthAdds([header] + [Line(entries[0])], folded);
    WidthAdds([header] + [Line(entries[0])] + [folded], footer);
  }

  /** The message is within the limit exactly when the header, the overflow line of all
      the counts (if there are any) and the footer are. */
  lemma SummaryFitsIff(header: string, entries: seq<Entry>, k: nat, footer: string)
    requires k <= |entries|
    requires forall j :: 0 <= j < k ==> Fits(header, entries, j, footer)
    requires k < |entries| ==> !Fits(header, entries, k, footer)
    ensures Width(Shown(header, entries, k, footer)) <= LIMIT <==> Width(Shown(header, entries, 0, footer)) <= LIMIT
  {
    hide Width, Shown, Candidate;
    if k > 0 {
      assert Fits(header, entries, k - 1, footer) && Fits(header, entries, 0, footer);
      CandidateLeavesRoom(header, entries, k - 1, footer);
      FoldedIsShorter(header, entries, footer);
    }
  }

  // -------------------------------------------------------------------------
  // The order of the entries
  // -------------------------------------------------------------------------

  /** The sort key: a plain ban comes before every step. */
  function Rank(step: Option<int>): int {
    if step.None? then -1 else step.value
  }

  /** The items of `counts`, each once, by rank. */
  ghost predicate Lists(entries: seq<Entry>, counts: map<Option<int>, nat>) {
    && (forall i, j :: 0 <= i < j < |entries| ==> entries[i].step != entries[j].step && Rank(entries[i].step) <= Rank(entries[j].step))
    && (forall i :: 0 <= i < |entries| ==> entries[i].step in counts && counts[entries[i].step] == entries[i].count)
    && (forall k :: k in counts ==> Entry(k, counts[k]) in entries)
  }

  method Least(keys: set<Option<int>>) returns (least: Option<int>)
    requires keys != {}
    ensures least in keys && forall k :: k in keys ==> Rank(least) <= Rank(k)
  {
    least :| least in keys;
    var rest := keys - {least};
    while rest != {}
      invariant rest <= keys && least in keys
      invariant forall k :: k in keys && k !in rest ==> Rank(least) <= Rank(k)
      decreases |rest|
    {
      var k :| k in rest;
      rest := rest - {k};
      if Rank(k) < Rank(least) {
        least := k;
      }
    }
  }

  /** sorted(counts.items()), by the key the source gives it. */
  method SortedEntries(counts: map<Option<int>, nat>) returns (entries: seq<Entry>)
    ensures Lists(entries, counts)
  {
    entries := [];
    var rest := counts.Keys;
    while rest != {}
      invariant rest <= counts.Keys
      invariant forall i :: 0 <= i < |entries| ==>
        entries[i].step in counts && entries[i].step !in rest && counts[entries[i].step] == entries[i].count
      invariant forall i, j :: 0 <= i < j < |entries| ==>
        entries[i].step != entries[j].step && Rank(entries[i].step) <= Rank(entries[j].step)
      invariant forall i, k :: 0 <= i < |entries| && k in rest ==> Rank(entries[i].step) <= Rank(k)
      invariant forall k :: k in counts && k !in rest ==> Entry(k, counts[k]) in entries
      decreases |rest|
    {
      var k := Least(rest);
      rest := rest - {k};
      entries := entries + [Entry(k, counts[k])];
    }
  }

  /** The loop of render_summary, for entries in any order. The message shows the longest run of
      entries that each fit when measured, folds the others into one line whose number is
      their sum, and is within the limit whenever that is possible. */
  method RenderEntries(day: string, zone: string, entries: seq<Entry>, total: int) returns (message: string, ghost k: nat)
    ensures k <= |entries| && message == Join(Shown(Header(day, zone), entries, k, Footer(total)))
    ensures forall j :: 0 <= j < k ==> Units(Join(Candidate(Header(day, zone), entries, j, Footer(total)))) <= LIMIT
    ensures k < |entries| ==> Units(Join(Candidate(Header(day, zone), entries, k, Footer(total)))) > LIMIT
    ensures Units(message) <= LIMIT <==> Width(Shown(Header(day, zone), entries, 0, Footer(total))) <= LIMIT
    ensures Sum(entries[..k]) + Sum(entries[k..]) == Sum(entries)
  {
    hide Units, Join, Line, Overflow, Header, Footer;
    var header, footer := Header(day, zone), Footer(total);
    var lines := [header];
    var position := 0;
    k := 0;
    assert entries[..0] == [];
    while position < |entries|
      invariant 0 <= position <= |entries| && k == position
      invariant lines == [header] + Lines(entries[..position])
      invariant forall j :: 0 <= j < position ==> Fits(header, entries, j, footer)
    {
      var overflow := Overflow(entries[position..]);
      var line := Line(entries[position]);
      assert entries[..position + 1][..position] == entries[..position];
      assert lines + [line] == [header] + Lines(entries[..position + 1]);
      var candidate := Join(lines + [line] + [overflow] + [footer]);
      if Units(candidate) > LIMIT {
        lines := lines + [overflow];
        break;
      }
      lines := lines + [line];
      position := position + 1;
      k := position;
    }
    message := Join(lines + [footer]);
    assert k == |entries| ==> lines + [] == lines;
    forall j | 0 <= j < k ensures Units(Join(Candidate(header, entries, j, footer))) <= LIMIT {
      assert Fits(header, entries, j, footer);
    }
    SummaryFitsIff(header, entries, k, footer);
    SumFrom(entries, k);
  }

  /** render_summary: the sorted entries, as many as fit and the rest folded. */
  method RenderSummary(day: string, zone: string, counts: map<Option<int>, nat>, total: int)
    returns (message: string, entries: seq<Entry>, ghost k: nat)
    ensures Lists(entries, counts)
    ensures k <= |entries| && message == Join(Shown(Header(day, zone), entries, k, Footer(total)))
    ensures Units(message) <= LIMIT <==> Width(Shown(Header(day, zone), entries, 0, Footer(total))) <= LIMIT
    ensures forall j :: 0 <= j < k ==> Units(Join(Candidate(Header(day, zone), entries, j, Footer(total)))) <= LIMIT
    ensures k < |entries| ==> Units(Join(Candidate(Header(day, zone), entries, k, Footer(total)))) > LIMIT
    ensures Sum(entries[..k]) + Sum(entries[k..]) == Sum(entries)
  {
    hide Units, Join, Line, Overflow, Header, Footer, Lists, Shown, Candidate, Width, Fits;
    var items := SortedEntries(counts);
    entries := items;
    message, k := RenderEntries(day, zone, items, total);
  }
}
