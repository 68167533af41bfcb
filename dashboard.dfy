/** The monitor thread's arithmetic: one pass over the status table, the
    test that ends the monitor, and the rows of the status panel cut and
    padded to the panel's inner width. Console calls are left out: a row is
    the text written at its position. */
module Dashboard {
  import opened Strings
  import opened Jobs

  /** The counters and the `inArbeit` list one pass over the table yields. */
  datatype Tally = Tally(pending: nat, working: nat, done: nat, error: nat, skipped: nat, busy: seq<string>)

  /** The keys of `seen` whose status in m is s. */
  ghost function KeysWith(seen: set<string>, m: map<string, Status>, s: Status): set<string>
    requires seen <= m.Keys
  {
    set k | k in seen && m[k] == s
  }

  /** The number of entries of m in status s. */
  ghost function CountOf(m: map<string, Status>, s: Status): nat {
    |KeysWith(m.Keys, m, s)|
  }

  /** No entry is Pending or Working: every job has ended. */
  ghost predicate Settled(m: map<string, Status>) {
    forall k :: k in m ==> Terminal(m[k])
  }

  /** Counting one more key adds one to the counter of its status only. */
  lemma KeysWithAdd(seen: set<string>, m: map<string, Status>, k: string, s: Status)
    requires seen <= m.Keys && k in m && k !in seen
    ensures |KeysWith(seen + {k}, m, s)| == |KeysWith(seen, m, s)| + (if m[k] == s then 1 else 0)
  {
    if m[k] == s {
      assert KeysWith(seen + {k}, m, s) == KeysWith(seen, m, s) + {k};
    } else {
      assert KeysWith(seen + {k}, m, s) == KeysWith(seen, m, s);
    }
  }

  /** The monitor's stop test `pending == 0 && working == 0` holds exactly
      when every entry has ended. */
  lemma StopsIffSettled(m: map<string, Status>)
    ensures CountOf(m, Pending) == 0 && CountOf(m, Working) == 0 <==> Settled(m)
  {
    if !Settled(m) {
      var k :| k in m && !Terminal(m[k]);
      assert k in KeysWith(m.Keys, m, m[k]);
    } else {
      assert KeysWith(m.Keys, m, Pending) == {};
      assert KeysWith(m.Keys, m, Working) == {};
    }
  }

  /** What the tally loop knows after visiting the keys `seen`, with `rest`
      still to come: every visited key is below every remaining one, each
      counter counts the visited keys in its status, and `busy` lists the
      visited Working keys in ascending order. */
  ghost predicate TallyOf(m: map<string, Status>, seen: set<string>, rest: set<string>, t: Tally) {
    && seen <= m.Keys && rest == m.Keys - seen
    && (forall a, b :: a in seen && b in rest ==> Below(a, b))
    && t.pending == |KeysWith(seen, m, Pending)| && t.working == |KeysWith(seen, m, Working)|
    && t.done == |KeysWith(seen, m, Done)| && t.error == |KeysWith(seen, m, Error)|
    && t.skipped == |KeysWith(seen, m, Skipped)|
    && t.pending + t.working + t.done + t.error + t.skipped == |seen|
    && (forall k :: k in t.busy <==> k in seen && m[k] == Working)
    && StrictlySorted(t.busy) && |t.busy| == t.working
  }

  /** The tally after visiting k, the least of the remaining keys, as the
      loop body computes it. */
  function Visit(t: Tally, k: string, s: Status): Tally {
    Tally(if s == Pending then t.pending + 1 else t.pending,
          if s == Working then t.working + 1 else t.working,
          if s == Done then t.done + 1 else t.done,
          if s == Error then t.error + 1 else t.error,
          if s == Skipped then t.skipped + 1 else t.skipped,
          if s == Working then t.busy + [k] else t.busy)
  }

  /** Visiting the least remaining key keeps the loop's account. */
  lemma VisitLeast(m: map<string, Status>, seen: set<string>, rest: set<string>, t: Tally, k: string)
    requires TallyOf(m, seen, rest, t) && IsLeast(k, rest)
    ensures TallyOf(m, seen + {k}, rest - {k}, Visit(t, k, m[k]))
  {
    KeysWithAdd(seen, m, k, Pending);
    KeysWithAdd(seen, m, k, Working);
    KeysWithAdd(seen, m, k, Done);
    KeysWithAdd(seen, m, k, Error);
    KeysWithAdd(seen, m, k, Skipped);
    var t' := Visit(t, k, m[k]);
    forall i, j | 0 <= i < j < |t'.busy|
      ensures Below(t'.busy[i], t'.busy[j])
    {
      if j == |t.busy| {
        assert t.busy[i] in t.busy;
      }
    }
  }

  /** Before the first key, every counter is zero and nothing is busy. */
  lemma TallyStart(m: map<string, Status>)
    ensures TallyOf(m, {}, m.Keys, Tally(0, 0, 0, 0, 0, []))
  {
  }

  /** After the last key, the counters and the busy list are those of the
      whole table. */
  lemma TallyEnd(m: map<string, Status>, t: Tally)
    requires TallyOf(m, m.Keys, {}, t)
    ensures t.pending == CountOf(m, Pending) && t.working == CountOf(m, Working)
    ensures t.done == CountOf(m, Done) && t.error == CountOf(m, Error) && t.skipped == CountOf(m, Skipped)
    ensures t.pending + t.working + t.done + t.error + t.skipped == |m|
    ensures forall k :: k in t.busy <==> k in m && m[k] == Working
    ensures StrictlySorted(t.busy) && |t.busy| == t.working
    ensures t.pending == 0 && t.working == 0 <==> Settled(m)
  {
  }

  /** The tally loop: a range-for over the std::map visits the keys in
      ascending order; each entry bumps the counter of its status and a
      Working key is appended to the busy list. */
  method TallyStatuses(m: map<string, Status>) returns (t: Tally)
    ensures t.pending == CountOf(m, Pending) && t.working == CountOf(m, Working)
    ensures t.done == CountOf(m, Done) && t.error == CountOf(m, Error) && t.skipped == CountOf(m, Skipped)
    ensures t.pending + t.working + t.done + t.error + t.skipped == |m|
    ensures forall k :: k in t.busy <==> k in m && m[k] == Working
    ensures StrictlySorted(t.busy) && |t.busy| == t.working
    ensures MonitorStops(t) <==> Settled(m)
  {
    var pending, working, done, error, skipped := 0, 0, 0, 0, 0;
    var busy: seq<string> := [];
    ghost var seen: set<string> := {};
    var rest := m.Keys;
    TallyStart(m);
    while rest != {}
      invariant TallyOf(m, seen, rest, Tally(pending, working, done, error, skipped, busy))
      decreases rest
    {
      LeastExists(rest);
      var k :| IsLeast(k, rest);
      ghost var before := Tally(pending, working, done, error, skipped, busy);
      VisitLeast(m, seen, rest, before, k);
      match m[k] {
        case Pending => pending := pending + 1;
        case Working =>
          working := working + 1;
          busy := busy + [k];
        case Done => done := done + 1;
        case Error => error := error + 1;
        case Skipped => skipped := skipped + 1;
      }
      assert Tally(pending, working, done, error, skipped, busy) == Visit(before, k, m[k]);
      seen := seen + {k};
      rest := rest - {k};
    }
    assert seen == m.Keys;
    t := Tally(pending, working, done, error, skipped, busy);
    TallyEnd(m, t);
  }

  /** The monitor leaves its loop after a pass whose tally shows nothing
      Pending and nothing Working. */
  predicate MonitorStops(t: Tally) {
    t.pending == 0 && t.working == 0
  }

  /** `if (size > cellWidth) resize(cellWidth)` followed by
      `std::wstring(cellWidth - size, ' ')`: the text cut or blank-padded to
      exactly w characters. */
  function FitRow(s: string, w: nat): (r: string)
    ensures |r| == w
  {
    var cut := Truncate(s, w);
    cut + Blanks(w - |cut|)
  }

  /** A fitted row shows the text's first w characters, then blanks. */
  lemma FitRowChars(s: string, w: nat)
    ensures forall i :: 0 <= i < w ==> FitRow(s, w)[i] == if i < |s| then s[i] else ' '
  {
  }

  /** The summary line before it is cut: the five counters in a fixed
      order, starting with a space. */
  function SummaryText(t: Tally): string {
    " Pending: " + NatToString(t.pending) +
    " - Working: " + NatToString(t.working) +
    " - Done: " + NatToString(t.done) +
    " - Error: " + NatToString(t.error) +
    " - Skipped: " + NatToString(t.skipped)
  }

  /** The summary row as written: the text cut to w, its leading blank
      trimmed, and padding computed from the length before trimming. */
  function SummaryRow(t: Tally, w: nat): string {
    var cut := Truncate(SummaryText(t), w);
    TrimLeading(cut) + Blanks(w - |cut|)
  }

  /** Because the summary text starts with one space, the row written is the
      text from its second character, cut or padded to w - 1 characters: one
      column short of the detail rows. */
  lemma SummaryRowShape(t: Tally, w: nat)
    ensures w == 0 ==> SummaryRow(t, w) == ""
    ensures w > 0 ==> |SummaryRow(t, w)| == w - 1
    ensures forall i :: 0 <= i < |SummaryRow(t, w)| ==>
      SummaryRow(t, w)[i] == if i + 1 < |SummaryText(t)| then SummaryText(t)[i + 1] else ' '
  {
    var text := SummaryText(t);
    var cut := Truncate(text, w);
    assert text[0] == ' ' && text[1] == 'P';
    if |cut| >= 2 {
      TrimLeadingOneBlank(cut);
    }
  }

  /** ` (<size>)` after the file name when the file's size is known, empty
      otherwise; `sizes` holds the formatted sizes of the files that exist. */
  function SizeNote(sizes: map<string, string>, name: string): string {
    if name in sizes then " (" + sizes[name] + ")" else ""
  }

  /** A detail row's text: `[Thread <row + 1>] <name><size note>`. */
  function DetailText(row: nat, name: string, note: string): (r: string)
    ensures |r| >= 1 && r[0] == '['
  {
    "[Thread " + NatToString(row + 1) + "] " + name + note
  }

  /** One pass of the row loop's body: the text of the busy file for this
      slot, or nothing, passed through trimLeading, cut to w and padded. */
  function DetailRow(busy: seq<string>, row: nat, w: nat, sizes: map<string, string>): string {
    var detail := if row < |busy| then TrimLeading(DetailText(row, busy[row], SizeNote(sizes, busy[row]))) else "";
    var cut := Truncate(detail, w);
    cut + Blanks(w - |cut|)
  }

  /** Trimming never cuts a detail text, which starts with '[', so a row is
      its text fitted to w, and a slot without a busy file is all blanks. */
  lemma DetailRowFits(busy: seq<string>, row: nat, w: nat, sizes: map<string, string>)
    ensures row < |busy| ==> DetailRow(busy, row, w, sizes) == FitRow(DetailText(row, busy[row], SizeNote(sizes, busy[row])), w)
    ensures |busy| <= row ==> DetailRow(busy, row, w, sizes) == Blanks(w)
  {
  }

  /** The detail rows, one per worker slot: row r shows the r-th busy file
      while there is one and is blank otherwise; every row is cut or padded
      to w characters. */
  method DetailRows(busy: seq<string>, slots: nat, w: nat, sizes: map<string, string>) returns (rows: seq<string>)
    ensures |rows| == slots
    ensures forall r :: 0 <= r < slots ==> |rows[r]| == w
    ensures forall r :: 0 <= r < slots && r < |busy| ==>
      rows[r] == FitRow(DetailText(r, busy[r], SizeNote(sizes, busy[r])), w)
    ensures forall r :: 0 <= r < slots && |busy| <= r ==> rows[r] == Blanks(w)
  {
    rows := [];
    for row := 0 to slots
      invariant |rows| == row
      invariant forall r :: 0 <= r < row ==> rows[r] == DetailRow(busy, r, w, sizes)
    {
      rows := rows + [DetailRow(busy, row, w, sizes)];
    }
    forall r | 0 <= r < slots
      ensures |rows[r]| == w
      ensures r < |busy| ==> rows[r] == FitRow(DetailText(r, busy[r], SizeNote(sizes, busy[r])), w)
      ensures |busy| <= r ==> rows[r] == Blanks(w)
    {
      DetailRowFits(busy, r, w, sizes);
    }
  }
}
