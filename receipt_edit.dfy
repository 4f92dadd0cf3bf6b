/** The verify-and-edit screen (components/ReceiptEdit.tsx): a form whose four
    fields start from the draft, falling back to defaults, and whose submit
    promotes the draft to a full Receipt. */
module ReceiptEdit {
  import opened Types

  /** The form state: the four user-editable fields. */
  datatype FormData = FormData(merchant: string, total: int, date: string, category: string)

  /** `iso.split('T')[0]`: the part of a timestamp before its first 'T',
      or all of it when it has none. */
  function DatePart(iso: string): (d: string)
    ensures d <= iso
    ensures 'T' !in d
    ensures |d| == |iso| || iso[|d|] == 'T'
  {
    if iso == [] || iso[0] == 'T' then [] else [iso[0]] + DatePart(iso[1..])
  }

  /** `s || fallback` for a text field: a missing and an empty string are both falsy. */
  function TextOr(s: Option<string>, fallback: string): (r: string)
    ensures s.Some? && s.value != "" ==> r == s.value
    ensures s.None? || s.value == "" ==> r == fallback
    ensures r != "" <==> (s.Some? && s.value != "") || fallback != ""
    ensures fallback == "" ==> r == s.GetOr("")
  {
    if s.Some? && s.value != "" then s.value else fallback
  }

  /** `n || 0` for an amount: a missing amount and a zero amount are both falsy
      (a missing one stands also for NaN, which is falsy too). */
  function AmountOr(n: Option<int>): (r: int)
    ensures r == n.GetOr(0)
    ensures r == 0 <==> n.None? || n.value == 0
  {
    if n.Some? && n.value != 0 then n.value else 0
  }

  /** The initial form state, built from the draft and the current ISO timestamp. */
  function InitialForm(data: Draft, nowIso: string): (f: FormData)
    ensures f.merchant == data.merchant.GetOr("")
    ensures f.total == data.total.GetOr(0)
    ensures data.date.Some? && data.date.value != "" ==> f.date == data.date.value
    ensures data.date.None? || data.date.value == "" ==>
              f.date == DatePart(nowIso) && f.date <= nowIso && 'T' !in f.date
    ensures data.category.Some? && data.category.value != "" ==> f.category == data.category.value
    ensures data.category.None? || data.category.value == "" ==>
              f.category == "Other" && f.category in Categories()
  {
    FormData(TextOr(data.merchant, ""), AmountOr(data.total),
             TextOr(data.date, DatePart(nowIso)), TextOr(data.category, "Other"))
  }

  /** The object handed to `onSave`: the form's four fields, the draft's id
      and image, and the submit-time clock. */
  function Promote(f: FormData, data: Draft, now: int): (r: Receipt)
    requires data.id.Some? && data.imageUrl.Some?
    ensures r.merchant == f.merchant && r.total == f.total && r.date == f.date && r.category == f.category
    ensures r.id == data.id.value && r.imageUrl == data.imageUrl.value
    ensures r.timestamp == now
  {
    Receipt(data.id.value, f.date, f.merchant, f.total, f.category, data.imageUrl.value, now)
  }

  /** The mounted edit screen: `data` is its current `data` prop, `form` its
      state. The form state is initialised once, at mount, from the prop of
      that moment; a later prop replaces `data` but not `form`. */
  class EditForm {
    var data: Draft
    var form: FormData

    constructor (data: Draft, nowIso: string)
      ensures this.data == data
      ensures form == InitialForm(data, nowIso)
    {
      this.data := data;
      form := InitialForm(data, nowIso);
    }

    /** A re-render with a new `data` prop: `useState` keeps the form state. */
    method SetData(d: Draft)
      modifies this
      ensures data == d && form == old(form)
    {
      data := d;
    }

    /** The merchant input's onChange. */
    method SetMerchant(v: string)
      modifies this
      ensures form == old(form).(merchant := v)
      ensures data == old(data)
    {
      form := form.(merchant := v);
    }

    /** The amount input's onChange; `parsed` is `parseFloat` of the input, None for NaN. */
    method SetAmount(parsed: Option<int>)
      modifies this
      ensures form == old(form).(total := parsed.GetOr(0))
      ensures data == old(data)
      ensures parsed.None? ==> form.total == 0
    {
      form := form.(total := AmountOr(parsed));
    }

    /** The date input's onChange. */
    method SetDate(v: string)
      modifies this
      ensures form == old(form).(date := v)
      ensures data == old(data)
    {
      form := form.(date := v);
    }

    /** The category select's onChange. */
    method SetCategory(v: string)
      modifies this
      ensures form == old(form).(category := v)
      ensures data == old(data)
    {
      form := form.(category := v);
    }

    /** handleSubmit: the receipt passed to `onSave`, built from the form state
        and the id and image of the current prop. */
    method Submit(now: int) returns (r: Receipt)
      requires data.id.Some? && data.imageUrl.Some?
      ensures r == Promote(form, data, now)
    {
      r := Promote(form, data, now);
    }
  }

  /** Submitting an unedited form opened on a receipt gives back that receipt,
      when submitted at its own timestamp, unless its date or category is
      empty (an empty merchant or a zero total is its own default). */
  lemma PromoteRoundTrip(r: Receipt, nowIso: string)
    requires r.date != "" && r.category != ""
    ensures Promote(InitialForm(AsDraft(r), nowIso), AsDraft(r), r.timestamp) == r
  {
  }

  /** Given the same form, the promoted record depends on the draft only
      through its id and image: extracted merchant, total, date, category and
      timestamp never leak past the form. */
  lemma PromoteIgnoresDraftFields(f: FormData, d1: Draft, d2: Draft, now: int)
    requires d1.id.Some? && d1.imageUrl.Some?
    requires d1.id == d2.id && d1.imageUrl == d2.imageUrl
    ensures Promote(f, d1, now) == Promote(f, d2, now)
  {
  }

  /** The category select only offers Categories(), but a non-empty draft
      category outside that list survives unchanged into the submitted record. */
  lemma OffListCategorySurvives(d: Draft, nowIso: string, now: int)
    requires d.id.Some? && d.imageUrl.Some?
    requires d.category.Some? && d.category.value != "" && d.category.value !in Categories()
    ensures Promote(InitialForm(d, nowIso), d, now).category == d.category.value
    ensures Promote(InitialForm(d, nowIso), d, now).category !in Categories()
  {
  }

  /** Such a draft exists: "Groceries" is not one of Categories(). */
  lemma OffListCategoryExists(nowIso: string, now: int)
    ensures var d := Draft(Some("1"), None, None, None, Some("Groceries"), Some("data:"), None);
            d.category.value !in Categories() &&
            Promote(InitialForm(d, nowIso), d, now).category == "Groceries"
  {
    var d := Draft(Some("1"), None, None, None, Some("Groceries"), Some("data:"), None);
    OffListCategorySurvives(d, nowIso, now);
  }
}
