/** The subtitle admin page: on save, an uploaded timeline file is turned
    into the stored subtitle list (one entry per line of commentary that
    has text), and the list column shows a short preview of the stored
    subtitle.

    Times are kept as the number of hundredths `round(float(v), 2)` gives.
    The stored subtitle is kept symbolic: `Entries(es)` is the UTF-8 JSON
    text of the list `es` that the save writes, and `Foreign(j)` is any
    other stored bytes, given by what decoding and parsing them yields. */
module SubtitleAdmin {
  import opened Wrappers
  import opened Text

  // ---------------------------------------------------------------------
  // The uploaded file
  // ---------------------------------------------------------------------

  /** A time field of an uploaded item: missing, convertible by
      `round(float(v), 2)` (in hundredths), or not convertible (a string
      that is not a number, `null`, a list, ...). */
  datatype TimeField = Absent | Hundredths(value: int) | NotANumber

  /** One element of the uploaded list. A JSON object has two time fields
      and two text fields; a text field is `None` when it is missing or
      falsy, and otherwise holds its `str()` rendering. Anything that is not
      an object has no `.get`. */
  datatype Item =
    | Obj(start: TimeField, end: TimeField, caster: Option<string>, analyst: Option<string>)
    | NotAnObject

  /** What `save_model` finds in the form: no file, bytes that are not
      UTF-8, text that is not JSON, JSON that is not iterable, or JSON whose
      iteration yields these items (a list's elements; a dict's keys and a
      string's characters are `NotAnObject` items). */
  datatype Upload = NoFile | Undecodable | NotJson | NotIterable | Items(items: seq<Item>)

  /** One stored subtitle entry. */
  datatype Entry = Entry(start: int, end: int, text: string)

  // ---------------------------------------------------------------------
  // Entry conversion
  // ---------------------------------------------------------------------

  /** `round(float(item.get(key, 0)), 2)`: a missing key reads as 0. */
  function Seconds(f: TimeField): (r: Option<int>)
    ensures f.Absent? ==> r == Some(0)
    ensures f.Hundredths? ==> r == Some(f.value)
    ensures f.NotANumber? ==> r.None?
  {
    match f
    case Absent => Some(0)
    case Hundredths(v) => Some(v)
    case NotANumber => None
  }

  /** A truthy text field. */
  predicate Present(t: Option<string>) {
    t.Some? && t.value != ""
  }

  /** `" ".join(text_parts)` over the present parts, caster first. */
  function JoinText(caster: Option<string>, analyst: Option<string>): (text: string)
    ensures Present(caster) && Present(analyst) ==> text == caster.value + " " + analyst.value
    ensures Present(caster) && !Present(analyst) ==> text == caster.value
    ensures !Present(caster) && Present(analyst) ==> text == analyst.value
    ensures !Present(caster) && !Present(analyst) ==> text == ""
  {
    if Present(caster) && Present(analyst) then caster.value + " " + analyst.value
    else if Present(caster) then caster.value
    else if Present(analyst) then analyst.value
    else ""
  }

  /** The joined text is blank exactly when every present part is blank. */
  lemma JoinTextBlank(caster: Option<string>, analyst: Option<string>)
    ensures IsBlank(JoinText(caster, analyst))
            <==> (Present(caster) ==> IsBlank(caster.value)) && (Present(analyst) ==> IsBlank(analyst.value))
  {
    if Present(caster) && Present(analyst) {
      assert IsBlank(" ") by { assert IsSpace(" "[0]); }
      BlankJoin(caster.value, " ", analyst.value);
    }
  }

  /** One iteration of the loop: `Err` is an exception, `Ok(None)` an item
      dropped because its text is all whitespace (`full_text.strip()` is
      empty exactly then, by `StripEmptyIffBlank`). */
  function ConvertItem(item: Item): (r: Result<Option<Entry>, ()>)
    ensures r.Ok? <==> item.Obj? && Seconds(item.start).Some? && Seconds(item.end).Some?
    ensures r.Ok? && r.value.Some? ==>
              && r.value.value == Entry(Seconds(item.start).value, Seconds(item.end).value, JoinText(item.caster, item.analyst))
              && !IsBlank(r.value.value.text)
    ensures r.Ok? && r.value.None? ==> IsBlank(JoinText(item.caster, item.analyst))
  {
    match item
    case NotAnObject => Err(())
    case Obj(start, end, caster, analyst) =>
      match (Seconds(start), Seconds(end))
      case (Some(s), Some(e)) =>
        var text := JoinText(caster, analyst);
        if !IsBlank(text) then Ok(Some(Entry(s, e, text))) else Ok(None)
      case _ => Err(())
  }

  /** One more item after a converted prefix. */
  function Extend(prefix: Result<seq<Entry>, ()>, item: Item): (r: Result<seq<Entry>, ()>)
    ensures r.Ok? <==> prefix.Ok? && ConvertItem(item).Ok?
    ensures r.Ok? ==> prefix.value <= r.value && |r.value| <= |prefix.value| + 1
  {
    var c := ConvertItem(item);
    if prefix.Err? || c.Err? then Err(())
    else if c.value.None? then prefix
    else Ok(prefix.value + [c.value.value])
  }

  /** The loop over the items, in order; the first exception stops it. */
  function ConvertItems(items: seq<Item>): (r: Result<seq<Entry>, ()>)
    ensures r.Ok? ==> |r.value| <= |items|
    ensures r.Ok? <==> forall i :: 0 <= i < |items| ==> ConvertItem(items[i]).Ok?
  {
    if items == [] then Ok([])
    else
      var init := items[..|items| - 1];
      var last := items[|items| - 1];
      var prefix := ConvertItems(init);
      assert forall i :: 0 <= i < |init| ==> init[i] == items[i];
      assert (forall i :: 0 <= i < |items| ==> ConvertItem(items[i]).Ok?)
             <==> prefix.Ok? && ConvertItem(last).Ok?;
      Extend(prefix, last)
  }

  /** Helper: converting one more item of a list extends the converted
      prefix by that item. */
  lemma ConvertPrefixStep(items: seq<Item>, i: nat)
    requires i < |items|
    ensures ConvertItems(items[..i + 1]) == Extend(ConvertItems(items[..i]), items[i])
    ensures ConvertItem(items[i]).Err? ==> ConvertItems(items).Err?
  {
    assert items[..i + 1][..i] == items[..i];
    assert items[..i + 1][i] == items[i];
  }

  /** Every kept entry has text that does not strip to nothing. */
  lemma {:induction false} KeptEntriesHaveText(items: seq<Item>)
    requires ConvertItems(items).Ok?
    ensures forall i :: 0 <= i < |ConvertItems(items).value| ==> !IsBlank(ConvertItems(items).value[i].text)
    decreases |items|
  {
    if items != [] {
      var init := items[..|items| - 1];
      KeptEntriesHaveText(init);
      var c := ConvertItem(items[|items| - 1]);
      if c.value.Some? {
        assert ConvertItems(items).value == ConvertItems(init).value + [c.value.value];
      }
    }
  }

  /** What `save_model` computes from the upload: the new entry list, or
      `None` when there is no file or any step raises. */
  function Process(upload: Upload): (r: Option<seq<Entry>>)
    ensures upload.Items? && ConvertItems(upload.items).Ok? <==> r.Some?
    ensures r.Some? ==> r.value == ConvertItems(upload.items).value
  {
    if upload.Items? && ConvertItems(upload.items).Ok? then Some(ConvertItems(upload.items).value) else None
  }

  // ---------------------------------------------------------------------
  // Properties of the conversion
  // ---------------------------------------------------------------------

  /** Two loop results side by side. */
  function Combine(x: Result<seq<Entry>, ()>, y: Result<seq<Entry>, ()>): Result<seq<Entry>, ()> {
    if x.Ok? && y.Ok? then Ok(x.value + y.value) else Err(())
  }

  /** Converting two lists one after the other is converting their
      concatenation: the output keeps the input's order, and an exception
      anywhere loses everything. */
  lemma {:induction false} ConvertConcat(a: seq<Item>, b: seq<Item>)
    ensures ConvertItems(a + b) == Combine(ConvertItems(a), ConvertItems(b))
    decreases |b|
  {
    if b == [] {
      assert a + b == a;
      if ConvertItems(a).Ok? {
        assert ConvertItems(a).value + [] == ConvertItems(a).value;
      }
    } else {
      var b' := b[..|b| - 1];
      var last := b[|b| - 1];
      assert (a + b)[..|a + b| - 1] == a + b';
      assert (a + b)[|a + b| - 1] == last;
      ConvertConcat(a, b');
      assert ConvertItems(a + b) == Extend(Combine(ConvertItems(a), ConvertItems(b')), last);
      assert ConvertItems(b) == Extend(ConvertItems(b'), last);
      if ConvertItems(a).Ok? && ConvertItems(b').Ok? && ConvertItem(last).Ok? && ConvertItem(last).value.Some? {
        var x, y, e := ConvertItems(a).value, ConvertItems(b').value, ConvertItem(last).value.value;
        assert x + (y + [e]) == (x + y) + [e];
      }
    }
  }

  /** A one-item list keeps its item exactly when the item converts and its
      joined text is not blank. */
  lemma ConvertSingle(item: Item)
    ensures ConvertItems([item]).Ok? <==> ConvertItem(item).Ok?
    ensures ConvertItem(item).Ok? ==>
              ConvertItems([item]).value == (if ConvertItem(item).value.Some? then [ConvertItem(item).value.value] else [])
  {
    assert [item][..0] == [];
  }

  /** An object with only a caster line, no times, gives one entry at 0..0
      with that line as text; with a blank caster line and no analyst line
      it gives nothing. */
  lemma MissingTimesDefaultToZero(caster: string)
    requires Strip(caster) != []
    ensures ConvertItems([Obj(Absent, Absent, Some(caster), None)]) == Ok([Entry(0, 0, caster)])
    ensures ConvertItems([Obj(Absent, Absent, Some(" "), None)]) == Ok([])
  {
    var kept := Obj(Absent, Absent, Some(caster), None);
    var blank := Obj(Absent, Absent, Some(" "), None);
    StripEmptyIffBlank(caster);
    assert JoinText(Some(caster), None) == caster;
    assert ConvertItem(kept) == Ok(Some(Entry(0, 0, caster)));
    ConvertSingle(kept);
    assert IsBlank(" ") by { assert IsSpace(" "[0]); }
    assert ConvertItem(blank) == Ok(None);
    ConvertSingle(blank);
  }

  /** An item is dropped exactly when all its present text parts are
      whitespace. */
  lemma DroppedIffBlank(item: Item)
    requires ConvertItem(item).Ok?
    ensures ConvertItem(item).value.None?
            <==> (Present(item.caster) ==> IsBlank(item.caster.value)) && (Present(item.analyst) ==> IsBlank(item.analyst.value))
  {
    JoinTextBlank(item.caster, item.analyst);
    StripEmptyIffBlank(JoinText(item.caster, item.analyst));
  }

  // ---------------------------------------------------------------------
  // The stored subtitle and its preview
  // ---------------------------------------------------------------------

  /** An element of a stored JSON list as the preview reads it: an object
      whose "text" is a string, or anything else (for which `[0]['text']`
      or the slice raises). */
  datatype JsonItem = WithText(text: string) | NoText

  /** What `json.loads(subtitle.decode('utf-8'))` yields: an error, a falsy
      value (`[]`, `{}`, `""`, `0`, `null`, `false`), a non-empty list, or
      another truthy value. */
  datatype Json = Unparseable | Falsy | List(items: seq<JsonItem>) | OtherTruthy

  /** The `subtitle` column: empty (`b""` or NULL), the bytes a save
      wrote, or any other bytes. */
  datatype Blob = Empty | Entries(entries: seq<Entry>) | Foreign(json: Json)

  /** How the preview sees the bytes a save wrote: a JSON list of objects,
      each with its text. */
  function Parse(b: Blob): (j: Json)
    requires !b.Empty?
  {
    match b
    case Entries(es) => if es == [] then Falsy else List(seq(|es|, i requires 0 <= i < |es| => WithText(es[i].text)))
    case Foreign(j) => if j.List? && j.items == [] then Falsy else j
  }

  const NoData: string := "데이터 없음"
  const EmptyData: string := "빈 데이터"
  const DecodeError: string := "디코딩 오류"

  /** `s[:30]`. */
  function Take30(s: string): (r: string)
    ensures |r| == if |s| < 30 then |s| else 30
    ensures r <= s
  {
    if |s| <= 30 then s else s[..30]
  }

  /** `preview_subtitle`. */
  function Preview(b: Blob): (p: string)
    ensures b.Empty? ==> p == NoData
    ensures b.Entries? && b.entries == [] ==> p == EmptyData
    ensures b.Entries? && b.entries != [] ==> p == Take30(b.entries[0].text) + "..."
    ensures b.Foreign? && (b.json.Unparseable? || b.json.OtherTruthy?) ==> p == DecodeError
    ensures b.Foreign? && (b.json.Falsy? || (b.json.List? && b.json.items == [])) ==> p == EmptyData
    ensures b.Foreign? && b.json.List? && b.json.items != [] ==>
              p == if b.json.items[0].WithText? then Take30(b.json.items[0].text) + "..." else DecodeError
  {
    if b.Empty? then NoData
    else match Parse(b)
      case Unparseable => DecodeError
      case Falsy => EmptyData
      case OtherTruthy => DecodeError
      case List(items) =>
        match items[0]
        case WithText(t) => Take30(t) + "..."
        case NoText => DecodeError
  }

  /** The preview is always one of the three fixed messages or a prefix of
      at most 30 characters of some text followed by "...". */
  lemma PreviewShape(b: Blob)
    ensures var p := Preview(b);
            p in {NoData, EmptyData, DecodeError} || (exists t :: p == Take30(t) + "...")
  {
  }

  /** After a save that converted the upload, the preview shows the first
      kept line, cut to 30 characters, or says the list is empty. */
  lemma PreviewAfterSave(upload: Upload)
    requires Process(upload).Some?
    ensures var es := Process(upload).value;
            && (es == [] ==> Preview(Entries(es)) == EmptyData)
            && (es != [] ==> Preview(Entries(es)) == Take30(es[0].text) + "..." && Strip(es[0].text) != [])
  {
    var es := Process(upload).value;
    if es != [] {
      KeptEntriesHaveText(upload.items);
      StripEmptyIffBlank(es[0].text);
    }
  }

  // ---------------------------------------------------------------------
  // The admin's save
  // ---------------------------------------------------------------------

  /** A `SUBTITLE_INFO` row being saved from the admin form; `saves` counts
      the writes of the row. */
  class SubtitleRecord {
    var subtitle: Blob
    var saves: nat

    constructor (subtitle: Blob)
      ensures this.subtitle == subtitle && saves == 0
    {
      this.subtitle := subtitle;
      saves := 0;
    }

    /** `save_model`: convert the upload item by item; on success store the
        serialised list, on any failure keep the old subtitle; save the row
        in every case. */
    method SaveModel(upload: Upload)
      modifies this
      ensures saves == old(saves) + 1
      ensures Process(upload).Some? ==> subtitle == Entries(Process(upload).value)
      ensures Process(upload).None? ==> subtitle == old(subtitle)
    {
      if upload.Items? {
        var items := upload.items;
        var processed: seq<Entry> := [];
        var i := 0;
        var failed := false;
        while i < |items| && !failed
          invariant 0 <= i <= |items|
          invariant !failed ==> ConvertItems(items[..i]) == Ok(processed)
          invariant failed ==> ConvertItems(items).Err?
          invariant subtitle == old(subtitle) && saves == old(saves)
        {
          ConvertPrefixStep(items, i);
          match ConvertItem(items[i]) {
            case Err(_) =>
              failed := true;
            case Ok(None) =>
            case Ok(Some(e)) =>
              processed := processed + [e];
          }
          i := i + 1;
        }
        if !failed {
          assert items[..i] == items;
          assert Process(upload) == Some(processed);
          subtitle := Entries(processed);
        } else {
          assert Process(upload).None?;
        }
      }
      saves := saves + 1;
    }
  }
}
