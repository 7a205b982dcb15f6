/** The non-visual rules of the lead-detail dialog: the full name, the list
    of add-on lines and which detail rows are shown. Date and currency
    formatting are locale-dependent and are parameters. */
module LeadDetail {
  import opened Text

  // ---------------------------------------------------------------------
  // Full name

  /** The values `filter(Boolean)` keeps: present and non-empty. */
  function Present(values: seq<Option<string>>): (r: seq<string>)
    ensures |r| <= |values|
    ensures forall k :: 0 <= k < |r| ==> r[k] != "" && Some(r[k]) in values
    ensures forall i :: 0 <= i < |values| && values[i].Some? && values[i].value != "" ==> values[i].value in r
  {
    if values == [] then []
    else if values[0].Some? && values[0].value != "" then [values[0].value] + Present(values[1..])
    else Present(values[1..])
  }

  /** Filtering keeps order: the present values of two lists in a row are
      their present values in a row. */
  lemma {:induction false} PresentAppend(a: seq<Option<string>>, b: seq<Option<string>>)
    ensures Present(a + b) == Present(a) + Present(b)
    decreases |a|
  {
    if a == [] {
      assert a + b == b;
    } else {
      assert (a + b)[1..] == a[1..] + b;
      PresentAppend(a[1..], b);
    }
  }

  /** One value is kept exactly when it is present and non-empty. */
  lemma PresentOfOne(v: Option<string>)
    ensures Present([v]) == if v.Some? && v.value != "" then [v.value] else []
  {
    assert [v][1..] == [];
  }

  /** `[first_name, last_name].filter(Boolean).join(" ") || "—"`. */
  function FullName(first: Option<string>, last: Option<string>): (name: string)
    ensures name != ""
  {
    var joined := Join(Present([first, last]), " ");
    if joined == "" then "—" else joined
  }

  /** The full name is both names joined by one blank, the one present
      name, or `—` when neither is present. */
  lemma FullNameCases(first: Option<string>, last: Option<string>)
    ensures (first.None? || first.value == "") && (last.None? || last.value == "") ==>
      FullName(first, last) == "—"
    ensures first.Some? && first.value != "" && (last.None? || last.value == "") ==>
      FullName(first, last) == first.value
    ensures (first.None? || first.value == "") && last.Some? && last.value != "" ==>
      FullName(first, last) == last.value
    ensures first.Some? && first.value != "" && last.Some? && last.value != "" ==>
      FullName(first, last) == first.value + " " + last.value
  {
    var names := [first, last];
    assert names[1..] == [last];
    assert [last][1..] == [];
    var tail := if last.Some? && last.value != "" then [last.value] else [];
    assert Present([last]) == tail;
    if first.Some? && first.value != "" {
      var both := [first.value] + tail;
      assert Present(names) == both;
      if tail != [] {
        assert both[1..] == tail;
        assert Join(both, " ") == first.value + " " + Join(tail, " ");
      }
    } else {
      assert Present(names) == tail;
    }
  }

  // ---------------------------------------------------------------------
  // Add-on lines

  /** One entry of `add_ons` (a count) or of `subscription_add_ons` (a
      flag), in `Object.entries` order. */
  datatype AddOn = Quantity(key: string, count: int) | Subscription(key: string, on: bool)

  /** The filters: a count above zero, a flag that is set. */
  predicate Shown(a: AddOn) {
    match a
    case Quantity(_, count) => count > 0
    case Subscription(_, on) => on
  }

  /** `addOnLabels.get(k) || k`: the configured label, unless it is missing
      or empty. */
  function Label(labels: map<string, string>, key: string): (l: string)
    ensures key in labels && labels[key] != "" ==> l == labels[key]
    ensures key !in labels || labels[key] == "" ==> l == key
    ensures key != "" ==> l != ""
  {
    if key in labels && labels[key] != "" then labels[key] else key
  }

  /** The text of one line: `label: count` for a count, the label alone
      for a flag. */
  function LineOf(labels: map<string, string>, a: AddOn): string {
    match a
    case Quantity(key, count) => Label(labels, key) + ": " + IntToString(count)
    case Subscription(key, _) => Label(labels, key)
  }

  function Quantities(entries: seq<(string, int)>): (r: seq<AddOn>)
    ensures |r| == |entries|
    ensures forall i :: 0 <= i < |r| ==> r[i] == Quantity(entries[i].0, entries[i].1)
  {
    seq(|entries|, i requires 0 <= i < |entries| => Quantity(entries[i].0, entries[i].1))
  }

  function Subscriptions(entries: seq<(string, bool)>): (r: seq<AddOn>)
    ensures |r| == |entries|
    ensures forall i :: 0 <= i < |r| ==> r[i] == Subscription(entries[i].0, entries[i].1)
  {
    seq(|entries|, i requires 0 <= i < |entries| => Subscription(entries[i].0, entries[i].1))
  }

  /** All entries the dialog looks at: the counts, then the flags; a
      missing record contributes none. */
  function Entries(addOns: Option<seq<(string, int)>>, subscriptionAddOns: Option<seq<(string, bool)>>): seq<AddOn> {
    (if addOns.Some? then Quantities(addOns.value) else [])
    + (if subscriptionAddOns.Some? then Subscriptions(subscriptionAddOns.value) else [])
  }

  /** The lines of the shown entries, in entry order. */
  function Lines(labels: map<string, string>, es: seq<AddOn>): seq<string> {
    if es == [] then []
    else
      Lines(labels, es[..|es| - 1])
      + (if Shown(es[|es| - 1]) then [LineOf(labels, es[|es| - 1])] else [])
  }

  /** The number of shown entries. */
  function CountShown(es: seq<AddOn>): nat {
    if es == [] then 0
    else CountShown(es[..|es| - 1]) + (if Shown(es[|es| - 1]) then 1 else 0)
  }

  /** `addOnParts`. */
  function AddOnParts(addOns: Option<seq<(string, int)>>, subscriptionAddOns: Option<seq<(string, bool)>>,
                      labels: map<string, string>): seq<string> {
    Lines(labels, Entries(addOns, subscriptionAddOns))
  }

  /** `addOnParts` as the dialog builds it: two passes pushing onto one
      list. */
  method BuildAddOnParts(addOns: Option<seq<(string, int)>>, subscriptionAddOns: Option<seq<(string, bool)>>,
                         labels: map<string, string>) returns (parts: seq<string>)
    ensures parts == AddOnParts(addOns, subscriptionAddOns, labels)
  {
    parts := [];
    var counts := if addOns.Some? then addOns.value else [];
    for i := 0 to |counts|
      invariant parts == Lines(labels, Quantities(counts[..i]))
    {
      QuantitiesGrow(counts, i);
      LinesGrow(labels, Quantities(counts[..i]), Quantity(counts[i].0, counts[i].1));
      if counts[i].1 > 0 {
        parts := parts + [Label(labels, counts[i].0) + ": " + IntToString(counts[i].1)];
      }
    }
    assert counts[..|counts|] == counts;
    var quantities := Quantities(counts);
    var flags := if subscriptionAddOns.Some? then subscriptionAddOns.value else [];
    assert quantities + Subscriptions(flags[..0]) == quantities;
    for j := 0 to |flags|
      invariant parts == Lines(labels, quantities + Subscriptions(flags[..j]))
    {
      SubscriptionsGrow(quantities, flags, j);
      LinesGrow(labels, quantities + Subscriptions(flags[..j]), Subscription(flags[j].0, flags[j].1));
      if flags[j].1 {
        parts := parts + [Label(labels, flags[j].0)];
      }
    }
    assert flags[..|flags|] == flags;
  }

  lemma QuantitiesGrow(counts: seq<(string, int)>, i: nat)
    requires i < |counts|
    ensures Quantities(counts[..i + 1]) == Quantities(counts[..i]) + [Quantity(counts[i].0, counts[i].1)]
  {
  }

  lemma SubscriptionsGrow(quantities: seq<AddOn>, flags: seq<(string, bool)>, j: nat)
    requires j < |flags|
    ensures quantities + Subscriptions(flags[..j + 1])
         == quantities + Subscriptions(flags[..j]) + [Subscription(flags[j].0, flags[j].1)]
  {
    assert Subscriptions(flags[..j + 1]) == Subscriptions(flags[..j]) + [Subscription(flags[j].0, flags[j].1)];
  }

  /** One more entry adds its line when it is shown. */
  lemma LinesGrow(labels: map<string, string>, es: seq<AddOn>, e: AddOn)
    ensures Lines(labels, es + [e]) == Lines(labels, es) + (if Shown(e) then [LineOf(labels, e)] else [])
  {
    assert (es + [e])[..|es|] == es;
  }

  /** One line per shown entry. */
  lemma {:induction false} LinesLength(labels: map<string, string>, es: seq<AddOn>)
    ensures |Lines(labels, es)| == CountShown(es)
  {
    if es != [] {
      LinesLength(labels, es[..|es| - 1]);
    }
  }

  /** The line of a shown entry sits after the lines of the shown entries
      before it. */
  lemma {:induction false} LineAtPosition(labels: map<string, string>, es: seq<AddOn>, i: nat)
    requires i < |es| && Shown(es[i])
    ensures CountShown(es[..i]) < |Lines(labels, es)|
    ensures Lines(labels, es)[CountShown(es[..i])] == LineOf(labels, es[i])
  {
    var init := es[..|es| - 1];
    LinesLength(labels, init);
    if i < |es| - 1 {
      LineAtPosition(labels, init, i);
      assert init[..i] == es[..i];
    } else {
      assert init == es[..i];
    }
  }

  /** Every line is the line of a shown entry, at that entry's position. */
  lemma {:induction false} LineFromEntry(labels: map<string, string>, es: seq<AddOn>, j: nat)
    requires j < |Lines(labels, es)|
    ensures exists i :: 0 <= i < |es| && Shown(es[i]) && CountShown(es[..i]) == j
                        && Lines(labels, es)[j] == LineOf(labels, es[i])
  {
    var init := es[..|es| - 1];
    LinesLength(labels, init);
    if j < |Lines(labels, init)| {
      LineFromEntry(labels, init, j);
      var i :| 0 <= i < |init| && Shown(init[i]) && CountShown(init[..i]) == j
               && Lines(labels, init)[j] == LineOf(labels, init[i]);
      assert init[..i] == es[..i];
      assert es[i] == init[i];
    } else {
      assert init == es[..|es| - 1];
      assert CountShown(es[..|es| - 1]) == j;
    }
  }

  /** A shown entry counts towards every later position. */
  lemma {:induction false} CountShownGrows(es: seq<AddOn>, i: nat, j: nat)
    requires i < j <= |es| && Shown(es[i])
    ensures CountShown(es[..i]) < CountShown(es[..j])
    decreases j
  {
    var prefix := es[..j];
    assert prefix[..j - 1] == es[..j - 1];
    if i < j - 1 {
      CountShownGrows(es, i, j - 1);
    } else {
      assert prefix[j - 1] == es[i];
    }
  }

  /** Every count line comes before every flag line, and each is the line
      of its entry. */
  lemma QuantityLinesFirst(counts: seq<(string, int)>, flags: seq<(string, bool)>,
                           labels: map<string, string>, i: nat, j: nat)
    requires i < |counts| && counts[i].1 > 0
    requires j < |flags| && flags[j].1
    ensures var parts := AddOnParts(Some(counts), Some(flags), labels);
      var es := Entries(Some(counts), Some(flags));
      var p := CountShown(es[..i]);
      var q := CountShown(es[..|counts| + j]);
      && p < q < |parts|
      && parts[p] == Label(labels, counts[i].0) + ": " + IntToString(counts[i].1)
      && parts[q] == Label(labels, flags[j].0)
  {
    var es := Entries(Some(counts), Some(flags));
    assert es[i] == Quantity(counts[i].0, counts[i].1);
    assert es[|counts| + j] == Subscription(flags[j].0, flags[j].1);
    LineAtPosition(labels, es, i);
    LineAtPosition(labels, es, |counts| + j);
    CountShownGrows(es, i, |counts| + j);
  }

  // ---------------------------------------------------------------------
  // Detail rows

  /** What a row is given: text, or the add-on list element. */
  datatype RowValue = TextValue(s: string) | ListValue(lines: seq<string>)

  /** `Row`: hidden when the value is falsy or `—`. */
  predicate RowShown(value: Option<RowValue>) {
    match value
    case None => false
    case Some(TextValue(s)) => s != "" && s != "—"
    case Some(ListValue(_)) => true
  }

  /** The rows the `Row` calls render, in order: each candidate's caption
      and value, when its value is shown. */
  function ShownRows(candidates: seq<(string, Option<RowValue>)>): (rows: seq<(string, RowValue)>)
    ensures |rows| <= |candidates|
    ensures forall k :: 0 <= k < |rows| ==> RowShown(Some(rows[k].1))
  {
    if candidates == [] then []
    else
      var c := candidates[0];
      (if RowShown(c.1) then [(c.0, c.1.value)] else []) + ShownRows(candidates[1..])
  }

  /** A candidate whose value is shown is rendered. */
  lemma {:induction false} ShownRowsKeeps(candidates: seq<(string, Option<RowValue>)>, i: nat)
    requires i < |candidates| && RowShown(candidates[i].1)
    ensures (candidates[i].0, candidates[i].1.value) in ShownRows(candidates)
  {
    if i > 0 {
      ShownRowsKeeps(candidates[1..], i - 1);
    }
  }

  /** A rendered row is a candidate whose value is shown. */
  lemma {:induction false} ShownRowsKeepsOnly(candidates: seq<(string, Option<RowValue>)>, row: (string, RowValue))
    requires row in ShownRows(candidates)
    ensures exists i :: 0 <= i < |candidates| && candidates[i] == (row.0, Some(row.1))
  {
    var c := candidates[0];
    if RowShown(c.1) && row == (c.0, c.1.value) {
      assert candidates[0] == (row.0, Some(row.1));
    } else {
      ShownRowsKeepsOnly(candidates[1..], row);
      var i :| 0 <= i < |candidates[1..]| && candidates[1..][i] == (row.0, Some(row.1));
      assert candidates[i + 1] == (row.0, Some(row.1));
    }
  }

  function TextOf(v: Option<string>): Option<RowValue> {
    if v.Some? then Some(TextValue(v.value)) else None
  }

  datatype Lead = Lead(
    createdAt: string,
    domain: Option<string>,
    templateName: Option<string>,
    packageName: Option<string>,
    subscriptionYears: Option<int>,
    addOns: Option<seq<(string, int)>>,
    subscriptionAddOns: Option<seq<(string, bool)>>,
    firstName: Option<string>,
    lastName: Option<string>,
    email: Option<string>,
    phone: Option<string>,
    businessName: Option<string>,
    provinceName: Option<string>,
    city: Option<string>,
    amountIdr: Option<int>,
    promoCode: Option<string>)

  /** `${years} tahun` when the years are set and not zero. */
  function Duration(years: Option<int>): Option<RowValue> {
    if years.Some? && years.value != 0 then Some(TextValue(IntToString(years.value) + " tahun")) else None
  }

  /** The dialog's rows before `Row` hides any: every text field, then the
      add-on list when it has lines. */
  function Candidates(lead: Lead, labels: map<string, string>,
                      formatDate: string -> string, formatIdr: int -> string): seq<(string, Option<RowValue>)> {
    var parts := AddOnParts(lead.addOns, lead.subscriptionAddOns, labels);
    [ ("Tanggal", Some(TextValue(formatDate(lead.createdAt)))),
      ("Nama", Some(TextValue(FullName(lead.firstName, lead.lastName)))),
      ("Email", TextOf(lead.email)),
      ("Telp/WA", TextOf(lead.phone)),
      ("Bisnis", TextOf(lead.businessName)),
      ("Domain", TextOf(lead.domain)),
      ("Template", TextOf(lead.templateName)),
      ("Paket", TextOf(lead.packageName)),
      ("Durasi", Duration(lead.subscriptionYears)),
      ("Provinsi", TextOf(lead.provinceName)),
      ("Kota", TextOf(lead.city)),
      ("Promo", TextOf(lead.promoCode)),
      ("Total", if lead.amountIdr.Some? then Some(TextValue(formatIdr(lead.amountIdr.value))) else None),
      ("Add-ons", if |parts| > 0 then Some(ListValue(parts)) else None) ]
  }

  /** The rows the dialog shows, in order; nothing for a null lead. */
  function DetailRows(lead: Option<Lead>, labels: map<string, string>,
                      formatDate: string -> string, formatIdr: int -> string): (rows: Option<seq<(string, RowValue)>>)
    ensures rows.None? <==> lead.None?
    ensures rows.Some? ==> forall k :: 0 <= k < |rows.value| ==> RowShown(Some(rows.value[k].1))
  {
    if lead.None? then None
    else Some(ShownRows(Candidates(lead.value, labels, formatDate, formatIdr)))
  }

  /** The add-on row is shown, with every line, exactly when there are
      add-on lines. */
  lemma AddOnRowShown(lead: Lead, labels: map<string, string>,
                      formatDate: string -> string, formatIdr: int -> string)
    ensures var rows := DetailRows(Some(lead), labels, formatDate, formatIdr).value;
      var parts := AddOnParts(lead.addOns, lead.subscriptionAddOns, labels);
      ("Add-ons", ListValue(parts)) in rows <==> |parts| > 0
  {
    var cands := Candidates(lead, labels, formatDate, formatIdr);
    var parts := AddOnParts(lead.addOns, lead.subscriptionAddOns, labels);
    if |parts| > 0 {
      ShownRowsKeeps(cands, 13);
    } else if ("Add-ons", ListValue(parts)) in ShownRows(cands) {
      ShownRowsKeepsOnly(cands, ("Add-ons", ListValue(parts)));
    }
  }

  /** The name row is shown exactly when the full name is not the `—`
      placeholder. */
  lemma NameRowShown(lead: Lead, labels: map<string, string>,
                     formatDate: string -> string, formatIdr: int -> string)
    ensures var rows := DetailRows(Some(lead), labels, formatDate, formatIdr).value;
      var name := FullName(lead.firstName, lead.lastName);
      ("Nama", TextValue(name)) in rows <==> name != "—"
  {
    var cands := Candidates(lead, labels, formatDate, formatIdr);
    var name := FullName(lead.firstName, lead.lastName);
    if name != "—" {
      ShownRowsKeeps(cands, 1);
    } else if ("Nama", TextValue(name)) in ShownRows(cands) {
      ShownRowsKeepsOnly(cands, ("Nama", TextValue(name)));
    }
  }
}
