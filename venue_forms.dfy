/** The venue form state and the handlers that src/components/EditVenue/index.jsx
    and src/components/CreateVenue/index.jsx write identically: routing a changed
    input into `meta`, `location` or the top level, the media list operations,
    the media filter and the numeric conversions of the payload. */
module VenueForms {
  import opened Js

  /** One entry of the media list. */
  datatype Media = Media(url: string, alt: string)

  /** The entry "+ Add more images" appends: `{ url: "", alt: "" }`. */
  const BlankMedia: Media := Media("", "")

  /** The two inputs of a media entry. */
  datatype MediaField = Url | Alt

  /** The `formData` record: the top-level fields by name, the media list,
      and the `meta` and `location` objects by key. */
  datatype Form = Form(fields: map<string, Value>, media: seq<Media>,
                       meta: map<string, Value>, location: map<string, Value>)

  /** What `handleChange` reads from the event target. `number` stands for
      `Number(value)`, whose string parsing is not modelled. */
  datatype ChangeEvent = ChangeEvent(name: string, value: string, inputType: string,
                                     checked: bool, number: int)

  /** `map[key := v]` that leaves every other key as it was. */
  predicate UpdatedAt(before: map<string, Value>, after: map<string, Value>, key: string, v: Value) {
    after.Keys == before.Keys + {key} && after[key] == v &&
    forall k :: k in before && k != key ==> after[k] == before[k]
  }

  /** `handleChange`: a name of `meta` stores the checkbox state there; else
      a name of `location` stores the raw text there; else the top-level field
      gets the number for a number input and the text otherwise. */
  function ApplyChange(f: Form, e: ChangeEvent): Form {
    if e.name in f.meta then
      f.(meta := f.meta[e.name := Bool(e.checked)])
    else if e.name in f.location then
      f.(location := f.location[e.name := Str(e.value)])
    else
      f.(fields := f.fields[e.name := if e.inputType == "number" then Num(e.number) else Str(e.value)])
  }

  /** `handleChange` writes one key of one section and leaves the other
      sections, and the other keys of that section, as they were. */
  lemma ApplyChangeWritesOneTarget(f: Form, e: ChangeEvent)
    ensures var r := ApplyChange(f, e);
      r.media == f.media &&
      (e.name in f.meta ==>
        UpdatedAt(f.meta, r.meta, e.name, Bool(e.checked)) &&
        r.fields == f.fields && r.location == f.location) &&
      (e.name !in f.meta && e.name in f.location ==>
        UpdatedAt(f.location, r.location, e.name, Str(e.value)) &&
        r.fields == f.fields && r.meta == f.meta) &&
      (e.name !in f.meta && e.name !in f.location ==>
        UpdatedAt(f.fields, r.fields, e.name,
                  if e.inputType == "number" then Num(e.number) else Str(e.value)) &&
        r.meta == f.meta && r.location == f.location)
  {
  }

  /** One field of one entry set to `value`. */
  function SetField(m: Media, field: MediaField, value: string): Media {
    match field
    case Url => m.(url := value)
    case Alt => m.(alt := value)
  }

  /** `handleMediaChange` on the list: entry `index` gets `value` in `field`.
      An index outside the list makes the handler throw before it stores
      anything, so the list stays as it was. */
  function UpdateMedia(media: seq<Media>, index: int, field: MediaField, value: string): seq<Media> {
    if 0 <= index < |media| then media[index := SetField(media[index], field, value)] else media
  }

  /** Only `field` of entry `index` changes. */
  lemma UpdateMediaChangesOneField(media: seq<Media>, index: int, field: MediaField, value: string)
    ensures var r := UpdateMedia(media, index, field, value);
      |r| == |media| &&
      (forall j :: 0 <= j < |media| && j != index ==> r[j] == media[j]) &&
      (0 <= index < |media| ==>
        (field == Url ==> r[index].url == value && r[index].alt == media[index].alt) &&
        (field == Alt ==> r[index].alt == value && r[index].url == media[index].url))
  {
  }

  /** `media.filter((_, i) => i !== index)`, with `offset` the position of `s[0]`. */
  function DropIndex<T>(s: seq<T>, index: int, offset: int): seq<T> {
    if s == [] then []
    else (if offset == index then [] else [s[0]]) + DropIndex(s[1..], index, offset + 1)
  }

  /** `removeMediaField(index)` on the list. */
  function RemoveAt<T>(s: seq<T>, index: int): seq<T> {
    DropIndex(s, index, 0)
  }

  lemma {:induction false} DropIndexSlices<T>(s: seq<T>, index: int, offset: int)
    ensures 0 <= index - offset < |s| ==>
      DropIndex(s, index, offset) == s[..index - offset] + s[index - offset + 1..]
    ensures !(0 <= index - offset < |s|) ==> DropIndex(s, index, offset) == s
  {
    if s != [] {
      DropIndexSlices(s[1..], index, offset + 1);
      if offset == index {
        assert s[1..] == s[..0] + s[1..];
      } else if 0 <= index - offset < |s| {
        assert s[..index - offset] == [s[0]] + s[1..][..index - offset - 1];
        assert s[index - offset + 1..] == s[1..][index - offset..];
      } else {
        assert s == [s[0]] + s[1..];
      }
    }
  }

  /** Removing a position in the list drops exactly that entry and keeps the
      order of the rest; any other index leaves the list as it was. */
  lemma RemoveAtMeaning<T>(s: seq<T>, index: int)
    ensures 0 <= index < |s| ==> RemoveAt(s, index) == s[..index] + s[index + 1..]
    ensures 0 <= index < |s| ==> |RemoveAt(s, index)| == |s| - 1
    ensures !(0 <= index < |s|) ==> RemoveAt(s, index) == s
  {
    DropIndexSlices(s, index, 0);
  }

  /** The remove control is rendered only when the list has more than one entry. */
  predicate CanRemoveMedia(media: seq<Media>) {
    |media| > 1
  }

  /** Removing through the offered control never empties the list. */
  lemma RemoveOfferedKeepsAnEntry(media: seq<Media>, index: int)
    requires CanRemoveMedia(media)
    ensures |RemoveAt(media, index)| >= 1
  {
    RemoveAtMeaning(media, index);
  }

  /** The media filter's test for one entry: its URL is not empty after
      `trim()` and `new URL(url)` does not throw (`parses`). */
  predicate Keeps(m: Media, parses: string -> bool) {
    Trim(m.url) != "" && parses(m.url)
  }

  /** The filter's callback for one URL parser. */
  function KeepsWith(parses: string -> bool): Media -> bool {
    m => Keeps(m, parses)
  }

  /** `formData.media.filter(...)` in `handleSubmit`. */
  function FilterMedia(media: seq<Media>, parses: string -> bool): seq<Media> {
    FilterSeq(media, KeepsWith(parses))
  }

  /** The submitted media are exactly the entries with a URL that is not
      blank and that parses, whatever URL parser is assumed. */
  lemma FilterMediaMembers(media: seq<Media>, parses: string -> bool, m: Media)
    ensures m in FilterMedia(media, parses) <==> m in media && !IsBlank(m.url) && parses(m.url)
  {
    TrimEmptyIffBlank(m.url);
    FilterSeqMembers(media, KeepsWith(parses), m);
  }

  /** The filter keeps the order of the entries: it distributes over
      concatenation. */
  lemma FilterMediaConcat(a: seq<Media>, b: seq<Media>, parses: string -> bool)
    ensures FilterMedia(a + b, parses) == FilterMedia(a, parses) + FilterMedia(b, parses)
  {
    FilterSeqConcat(a, b, KeepsWith(parses));
  }

  /** `Number(v)` where the model can say: `None` for NaN and for a string
      that is not blank, whose parsing is not modelled. */
  function ToNumber(v: Value): Option<int> {
    match v
    case Undefined => None
    case Null => Some(0)
    case Bool(b) => Some(if b then 1 else 0)
    case Num(n) => Some(n)
    case Str(s) => if IsBlank(s) then Some(0) else None
  }

  /** `formData.rating ? Number(formData.rating) : 0`. */
  function RatingOf(v: Value): Option<int> {
    if Truthy(v) then ToNumber(v) else Some(0)
  }

  /** The numeric payload fields of a form reached through the inputs: an
      empty field counts 0, a number input its number; a falsy rating is 0. */
  lemma NumbersOfFormValues(n: int)
    ensures ToNumber(Str("")) == Some(0) && ToNumber(Num(n)) == Some(n)
    ensures RatingOf(Str("")) == Some(0) && RatingOf(Num(0)) == Some(0)
    ensures RatingOf(Num(n)) == Some(n)
  {
  }

  /** `formData[name]`, `undefined` when the field is absent. */
  function Get(m: map<string, Value>, key: string): Value {
    if key in m then m[key] else Undefined
  }

  /** The request body: the copied top-level fields, the converted numbers,
      the filtered media, and `meta` and `location` as they are. */
  datatype Payload = Payload(fields: map<string, Value>, price: Option<int>, maxGuests: Option<int>,
                             rating: Option<int>, media: seq<Media>,
                             meta: map<string, Value>, location: map<string, Value>)
}
