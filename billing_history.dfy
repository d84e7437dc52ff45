/** The payment table of src/components/Settings/BillingHistory.tsx: one row
    per history entry, in order, with defaults for the fields an entry may
    lack, and the event type turned into a title-cased label. */
module BillingHistory {
  import opened Common

  /** The parts of `payment.data.attributes` the table reads;
      `productName` is `first_order_item?.product_name`. */
  datatype EntryAttributes = EntryAttributes(status: Option<string>, createdAt: Option<Time>, productName: Option<string>)

  datatype EntryData = EntryData(id: Option<string>, attributes: Option<EntryAttributes>)

  /** One element of `payments`; `kind` is its top-level `type`. */
  datatype HistoryEntry = HistoryEntry(kind: Option<string>, data: Option<EntryData>)

  /** `formatDate`: the locale rendering of an instant, or `'N/A'`. */
  datatype DateCell = NotAvailable | LocaleDate(instant: Time)

  datatype Row = Row(date: DateCell, typeLabel: string, status: string, productName: string, paidBadge: bool)

  /** The "No payment history available" panel, or the table. */
  datatype HistoryView = NoHistory | Table(rows: seq<Row>)

  const NoAttributes := EntryAttributes(None, None, None)

  /** The regular-expression class `\w`. */
  predicate IsWordChar(c: char) {
    ('a' <= c <= 'z') || ('A' <= c <= 'Z') || ('0' <= c <= '9') || c == '_'
  }

  predicate IsLowerAscii(c: char) {
    'a' <= c <= 'z'
  }

  /** `toUpperCase` on one character matched by `\w`. */
  function UpperAscii(c: char): (u: char)
    ensures IsWordChar(u) <==> IsWordChar(c)
    ensures !IsLowerAscii(u)
    ensures !IsLowerAscii(c) ==> u == c
  {
    if IsLowerAscii(c) then (c as int - 32) as char else c
  }

  /** Position `i` of `s` matches `\b\w`: a word character at the start or after a non-word character. */
  predicate StartsWord(s: string, i: nat)
    requires i < |s|
  {
    IsWordChar(s[i]) && (i == 0 || !IsWordChar(s[i - 1]))
  }

  /** `.replace(/_/g, ' ')`: every underscore becomes a space and nothing else changes. */
  function Spaced(s: string): (r: string)
    ensures |r| == |s|
    ensures forall i :: 0 <= i < |r| ==> r[i] != '_'
    ensures forall i :: 0 <= i < |s| && s[i] == '_' ==> r[i] == ' '
    ensures forall i :: 0 <= i < |s| && s[i] != '_' ==> r[i] == s[i]
  {
    seq(|s|, i requires 0 <= i < |s| => if s[i] == '_' then ' ' else s[i])
  }

  /** `.replace(/\b\w/g, l => l.toUpperCase())` */
  function CapitalizeWords(s: string): (r: string)
    ensures |r| == |s|
  {
    seq(|s|, i requires 0 <= i < |s| => if StartsWord(s, i) then UpperAscii(s[i]) else s[i])
  }

  /** Upper-casing a word start keeps every word boundary where it was, so
      each word start of the result is a word start of the input: it is
      the input's character upper-cased, and every other character is unchanged. */
  lemma CapitalizeWordsEffect(s: string)
    ensures forall i :: 0 <= i < |s| ==> (StartsWord(CapitalizeWords(s), i) <==> StartsWord(s, i))
    ensures forall i :: 0 <= i < |s| && StartsWord(s, i) ==> CapitalizeWords(s)[i] == UpperAscii(s[i])
    ensures forall i :: 0 <= i < |s| && !StartsWord(s, i) ==> CapitalizeWords(s)[i] == s[i]
  {
    var r := CapitalizeWords(s);
    forall i | 0 <= i < |s|
      ensures StartsWord(r, i) <==> StartsWord(s, i)
    {
      assert IsWordChar(r[i]) <==> IsWordChar(s[i]);
      if i > 0 {
        assert IsWordChar(r[i - 1]) <==> IsWordChar(s[i - 1]);
      }
    }
  }

  /** Title-casing twice is title-casing once. */
  lemma CapitalizeWordsIdempotent(s: string)
    ensures CapitalizeWords(CapitalizeWords(s)) == CapitalizeWords(s)
  {
    var r := CapitalizeWords(s);
    CapitalizeWordsEffect(s);
    assert forall i :: 0 <= i < |r| ==> CapitalizeWords(r)[i] == r[i];
  }

  /** `payment.type?.replace(…).replace(…) || 'Payment'` */
  function TypeLabel(kind: Option<string>): (r: string)
    ensures kind.None? || kind.value == "" ==> r == "Payment"
    ensures kind.Some? && kind.value != "" ==> r == CapitalizeWords(Spaced(kind.value))
  {
    OrElse(if kind.Some? then Some(CapitalizeWords(Spaced(kind.value))) else None, "Payment")
  }

  /** A label has no underscores and keeps the type's length: each underscore
      is a space, each character that starts a word (once underscores are
      spaces) is upper-cased, and every other character is the type's own. */
  lemma TypeLabelShape(kind: string)
    requires kind != ""
    ensures var r := TypeLabel(Some(kind));
      && |r| == |kind|
      && (forall i :: 0 <= i < |r| ==> r[i] != '_')
      && (forall i :: 0 <= i < |r| && StartsWord(r, i) ==> !IsLowerAscii(r[i]))
      && (forall i :: 0 <= i < |r| && kind[i] == '_' ==> r[i] == ' ')
      && (forall i :: 0 <= i < |r| && StartsWord(Spaced(kind), i) ==> r[i] == UpperAscii(kind[i]))
      && (forall i :: 0 <= i < |r| && kind[i] != '_' && !StartsWord(Spaced(kind), i) ==> r[i] == kind[i])
  {
    var sp := Spaced(kind);
    CapitalizeWordsEffect(sp);
  }

  /** A label is its own label. */
  lemma TypeLabelIdempotent(kind: Option<string>)
    ensures TypeLabel(Some(TypeLabel(kind))) == TypeLabel(kind)
  {
    var r := TypeLabel(kind);
    assert Spaced(r) == r;
    if kind.Some? && kind.value != "" {
      CapitalizeWordsIdempotent(Spaced(kind.value));
    } else {
      assert CapitalizeWords(r) == r by {
        assert forall i :: 0 <= i < |r| ==> !IsLowerAscii(r[i]) || !StartsWord(r, i);
      }
    }
  }

  lemma TypeLabelExample()
    ensures TypeLabel(Some("subscription_created")) == "Subscription Created"
    ensures TypeLabel(Some("")) == "Payment" && TypeLabel(None) == "Payment"
  {
    var sp := Spaced("subscription_created");
    var expected := "Subscription Created";
    assert sp == "subscription created";
    var r := CapitalizeWords(sp);
    forall i | 0 <= i < |sp|
      ensures r[i] == expected[i]
    {
      if i != 0 && i != 12 && i != 13 {
        assert IsLowerAscii(sp[i]) && IsWordChar(sp[i - 1]);
      }
    }
    assert r == expected;
  }

  /** The row one entry renders. */
  function ProjectRow(p: HistoryEntry): (row: Row)
    ensures var a := if p.data.Some? && p.data.value.attributes.Some? then p.data.value.attributes.value else NoAttributes;
      && (a.status.None? || a.status.value == "" ==> row.status == "unknown")
      && (a.status.Some? && a.status.value != "" ==> row.status == a.status.value)
      && (a.productName.None? || a.productName.value == "" ==> row.productName == "Unknown Product")
      && (a.productName.Some? && a.productName.value != "" ==> row.productName == a.productName.value)
      && (row.date == NotAvailable <==> a.createdAt.None?)
      && (a.createdAt.Some? ==> row.date == LocaleDate(a.createdAt.value))
      && (row.paidBadge <==> a.status == Some("paid"))
      && row.typeLabel == TypeLabel(p.kind)
  {
    var a := if p.data.Some? && p.data.value.attributes.Some? then p.data.value.attributes.value else NoAttributes;
    var status := OrElse(a.status, "unknown");
    Row(
      if a.createdAt.Some? then LocaleDate(a.createdAt.value) else NotAvailable,
      TypeLabel(p.kind),
      status,
      OrElse(a.productName, "Unknown Product"),
      status == "paid")
  }

  /** `BillingHistory({ payments })`; `None` is a value that is not an array. */
  function Render(payments: Option<seq<HistoryEntry>>): (v: HistoryView)
    ensures v == NoHistory <==> payments.None? || |payments.value| == 0
    ensures v.Table? ==> |v.rows| == |payments.value|
    ensures v.Table? ==> forall i :: 0 <= i < |v.rows| ==> v.rows[i] == ProjectRow(payments.value[i])
  {
    if payments.None? || |payments.value| == 0 then NoHistory
    else Table(seq(|payments.value|, i requires 0 <= i < |payments.value| => ProjectRow(payments.value[i])))
  }
}
