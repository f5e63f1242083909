/** The venue editor (src/components/EditVenue/index.jsx): normalising the
    loaded record, the form handlers, the unchanged-form guard and the shape
    of the PUT body. */
module EditVenue {
  import opened Js
  import opened VenueForms

  /** `json.data.media` as loaded: not an array, or an array of entries. */
  datatype LoadedMedia = NotAnArray | MediaArray(items: seq<Media>)

  /** The loaded `json.data`; `meta` and `location` are `None` when absent. */
  datatype LoadedVenue = LoadedVenue(name: Value, description: Value, price: Value,
                                     maxGuests: Value, rating: Value, media: LoadedMedia,
                                     meta: Option<map<string, Value>>,
                                     location: Option<map<string, Value>>)

  /** `obj?.key`. */
  function Lookup(obj: Option<map<string, Value>>, key: string): Value {
    if obj.Some? && key in obj.value then obj.value[key] else Undefined
  }

  /** A media value that is not an array, or an empty one, becomes one blank entry. */
  function NormaliseMedia(m: LoadedMedia): seq<Media> {
    if m.MediaArray? && |m.items| > 0 then m.items else [BlankMedia]
  }

  const TopKeys: set<string> := {"name", "description", "price", "maxGuests", "rating"}
  const MetaKeys: set<string> := {"wifi", "parking", "breakfast", "pets"}
  const LocationKeys: set<string> := {"address", "city", "zip", "country", "continent", "lat", "lng"}

  /** `json.data[key]` for a top-level key of the form. */
  function LoadedField(l: LoadedVenue, key: string): Value {
    if key == "name" then l.name
    else if key == "description" then l.description
    else if key == "price" then l.price
    else if key == "maxGuests" then l.maxGuests
    else if key == "rating" then l.rating
    else Undefined
  }

  /** The default a falsy location value falls back to: 0 for a coordinate,
      `""` for the rest. */
  function LocationDefault(key: string): Value {
    if key == "lat" || key == "lng" then Num(0) else Str("")
  }

  /** The `venueData` record built from the loaded venue: each key of each
      section is the loaded value `||` its default. */
  function Normalise(l: LoadedVenue): Form {
    Form(map k | k in TopKeys :: Or(LoadedField(l, k), Str("")),
         NormaliseMedia(l.media),
         map k | k in MetaKeys :: Or(Lookup(l.meta, k), Bool(false)),
         map k | k in LocationKeys :: Or(Lookup(l.location, k), LocationDefault(k)))
  }

  /** The media rule of the loaded record: a non-array or empty value becomes
      one blank entry, anything else is kept as it is. */
  lemma NormaliseMediaRule(l: LoadedVenue)
    ensures l.media.NotAnArray? ==> Normalise(l).media == [BlankMedia]
    ensures l.media.MediaArray? && l.media.items == [] ==> Normalise(l).media == [BlankMedia]
    ensures l.media.MediaArray? && l.media.items != [] ==> Normalise(l).media == l.media.items
    ensures |Normalise(l).media| >= 1
  {
  }

  /** Every section of the loaded record has its fixed keys. */
  lemma NormaliseKeys(l: LoadedVenue)
    ensures Normalise(l).fields.Keys == TopKeys
    ensures Normalise(l).meta.Keys == MetaKeys
    ensures Normalise(l).location.Keys == LocationKeys
  {
  }

  /** A falsy top-level value becomes `""` and a truthy one is kept. */
  lemma NormaliseTextDefaults(l: LoadedVenue)
    ensures Normalise(l).fields["name"] == if Truthy(l.name) then l.name else Str("")
    ensures Normalise(l).fields["description"] == if Truthy(l.description) then l.description else Str("")
    ensures Normalise(l).fields["price"] == if Truthy(l.price) then l.price else Str("")
    ensures Normalise(l).fields["maxGuests"] == if Truthy(l.maxGuests) then l.maxGuests else Str("")
    ensures Normalise(l).fields["rating"] == if Truthy(l.rating) then l.rating else Str("")
  {
  }

  /** An amenity that is missing or falsy becomes `false`. */
  lemma NormaliseMetaDefaults(l: LoadedVenue, k: string)
    requires k in MetaKeys
    ensures Normalise(l).meta[k] == if Truthy(Lookup(l.meta, k)) then Lookup(l.meta, k) else Bool(false)
    ensures l.meta.None? ==> Normalise(l).meta[k] == Bool(false)
  {
  }

  /** A location key that is missing or falsy, whether or not the location
      itself is present, becomes `""`, or 0 for a coordinate; a truthy one is
      kept. */
  lemma NormaliseLocationDefaults(l: LoadedVenue, k: string)
    requires k in LocationKeys
    ensures l.location.None? && k != "lat" && k != "lng" ==> Normalise(l).location[k] == Str("")
    ensures l.location.None? && (k == "lat" || k == "lng") ==> Normalise(l).location[k] == Num(0)
    ensures Truthy(Lookup(l.location, k)) ==> Normalise(l).location[k] == Lookup(l.location, k)
    ensures !Truthy(Lookup(l.location, k)) ==> Normalise(l).location[k] == LocationDefault(k)
  {
  }

  /** The fields the PUT body copies as they are. */
  function CopiedFields(fields: map<string, Value>): map<string, Value> {
    map k | k in fields && (k == "name" || k == "description") :: fields[k]
  }

  /** The PUT body of `handleSubmit`. */
  function EditPayload(f: Form, parses: string -> bool): Payload {
    Payload(CopiedFields(f.fields), ToNumber(Get(f.fields, "price")), ToNumber(Get(f.fields, "maxGuests")),
            RatingOf(Get(f.fields, "rating")), FilterMedia(f.media, parses), f.meta, f.location)
  }

  /** The body sends only the name and description of the top-level text
      fields, the media that survive the filter, a 0 rating when the rating is
      empty, and `meta` and `location` unchanged. */
  lemma EditPayloadShape(f: Form, parses: string -> bool)
    ensures var p := EditPayload(f, parses);
      p.fields.Keys == f.fields.Keys * {"name", "description"} &&
      (forall k :: k in p.fields ==> p.fields[k] == f.fields[k]) &&
      (forall m :: m in p.media <==> m in f.media && !IsBlank(m.url) && parses(m.url)) &&
      (!Truthy(Get(f.fields, "rating")) ==> p.rating == Some(0)) &&
      p.meta == f.meta && p.location == f.location
  {
    forall m ensures m in EditPayload(f, parses).media <==> m in f.media && !IsBlank(m.url) && parses(m.url) {
      FilterMediaMembers(f.media, parses, m);
    }
  }

  /** What `handleSubmit` does: nothing when the form equals the loaded
      record, otherwise a PUT with the shaped body. */
  datatype SubmitResult = NoChanges | Put(payload: Payload)

  /** `isEqual(formData, originalVenue)` guards the request; before a record
      is loaded `originalVenue` is `null` and never equal.
      `EditVenueForm.HandleSubmit` returns exactly this. */
  function SubmitFor(form: Form, original: Option<Form>, parses: string -> bool): SubmitResult {
    if original == Some(form) then NoChanges else Put(EditPayload(form, parses))
  }

  /** A form equal to the loaded record is never sent, and any difference is. */
  lemma UnchangedFormNotSubmitted(form: Form, original: Form, parses: string -> bool)
    ensures SubmitFor(form, Some(original), parses) == NoChanges <==> form == original
  {
  }

  /** Editing an existing image of a freshly loaded venue to a different value
      is a change the guard sees, so the venue is sent. */
  lemma MediaEditIsDetected(l: LoadedVenue, index: int, field: MediaField, value: string,
                            parses: string -> bool)
    requires 0 <= index < |Normalise(l).media|
    requires SetField(Normalise(l).media[index], field, value) != Normalise(l).media[index]
    ensures var loaded := Normalise(l);
      SubmitFor(loaded.(media := UpdateMedia(loaded.media, index, field, value)), Some(loaded), parses).Put?
  {
    var loaded := Normalise(l);
    var edited := UpdateMedia(loaded.media, index, field, value);
    assert edited[index] != loaded.media[index];
    assert loaded.(media := edited) != loaded;
  }

  /** The editor's state: `formData`, `originalVenue` and `loading`. */
  class EditVenueForm {
    var form: Form
    var original: Option<Form>
    var loading: bool

    constructor ()
      ensures form.media == [BlankMedia] && form.fields.Keys == TopKeys
      ensures form.meta.Keys == MetaKeys && form.location.Keys == LocationKeys
      ensures original == None && loading
    {
      form := Form(
        map["name" := Str(""), "description" := Str(""), "price" := Str(""),
            "maxGuests" := Str(""), "rating" := Str("")],
        [BlankMedia],
        map["wifi" := Bool(false), "parking" := Bool(false), "breakfast" := Bool(false),
            "pets" := Bool(false)],
        map["address" := Str(""), "city" := Str(""), "zip" := Str(""), "country" := Str(""),
            "continent" := Str(""), "lat" := Num(0), "lng" := Num(0)]);
      original := None;
      loading := true;
    }

    /** A successful load: the normalised record becomes both the form and
        the original it is compared with. */
    method LoadSucceeded(l: LoadedVenue)
      modifies this
      ensures form == Normalise(l) && original == Some(form) && !loading
    {
      form := Normalise(l);
      original := Some(form);
      loading := false;
    }

    /** `handleChange`. */
    method HandleChange(e: ChangeEvent)
      modifies this
      ensures form == ApplyChange(old(form), e)
      ensures original == old(original) && loading == old(loading)
    {
      form := ApplyChange(form, e);
    }

    /** `handleMediaChange`, writing a new entry instead of the shared one
        (see `SharedMediaEdit` for the code as written). */
    method HandleMediaChange(index: int, field: MediaField, value: string)
      modifies this
      ensures form == old(form).(media := UpdateMedia(old(form).media, index, field, value))
      ensures original == old(original) && loading == old(loading)
    {
      form := form.(media := UpdateMedia(form.media, index, field, value));
    }

    /** `addMediaField`: one blank entry at the end. */
    method AddMediaField()
      modifies this
      ensures form == old(form).(media := old(form).media + [BlankMedia])
      ensures original == old(original) && loading == old(loading)
    {
      form := form.(media := form.media + [BlankMedia]);
    }

    /** `removeMediaField`. */
    method RemoveMediaField(index: int)
      modifies this
      ensures form == old(form).(media := RemoveAt(old(form).media, index))
      ensures original == old(original) && loading == old(loading)
    {
      form := form.(media := RemoveAt(form.media, index));
    }

    /** `handleSubmit`, up to the request it would send. */
    method HandleSubmit(parses: string -> bool) returns (r: SubmitResult)
      ensures r == SubmitFor(form, original, parses)
      ensures r == NoChanges <==> original == Some(form)
    {
      if original == Some(form) {
        return NoChanges;
      }
      r := Put(EditPayload(form, parses));
    }
  }

  /** A media entry object of the loaded record. The loaded record is stored
      as both `formData` and `originalVenue`, so both hold these same objects. */
  class MediaObject {
    var url: string
    var alt: string

    constructor (m: Media)
      ensures url == m.url && alt == m.alt
    {
      url, alt := m.url, m.alt;
    }
  }

  /** The values the objects hold now, as `JSON.stringify` sees them. */
  function Snapshot(objs: seq<MediaObject>): seq<Media>
    reads set o | o in objs
  {
    if objs == [] then []
    else Snapshot(objs[..|objs| - 1]) + [Media(objs[|objs| - 1].url, objs[|objs| - 1].alt)]
  }

  lemma {:induction false} SnapshotAt(objs: seq<MediaObject>, i: int)
    requires 0 <= i < |objs|
    ensures |Snapshot(objs)| == |objs|
    ensures Snapshot(objs)[i] == Media(objs[i].url, objs[i].alt)
  {
    if i < |objs| - 1 {
      SnapshotAt(objs[..|objs| - 1], i);
    } else if |objs| > 1 {
      SnapshotAt(objs[..|objs| - 1], 0);
    }
  }

  /** One object per loaded entry. */
  method MakeObjects(items: seq<Media>) returns (objs: seq<MediaObject>)
    ensures Snapshot(objs) == items && |objs| == |items|
    ensures forall o :: o in objs ==> fresh(o)
  {
    objs := [];
    var k := 0;
    while k < |items|
      invariant 0 <= k <= |items|
      invariant Snapshot(objs) == items[..k]
      invariant |objs| == k
      invariant forall o :: o in objs ==> fresh(o)
    {
      var o := new MediaObject(items[k]);
      assert (objs + [o])[..|objs + [o]| - 1] == objs;
      objs := objs + [o];
      assert items[..k + 1] == items[..k] + [items[k]];
      k := k + 1;
    }
    assert items[..k] == items;
  }

  /** `handleMediaChange` as written: `[...formData.media]` copies the array
      but not its entries, and `updatedMedia[index][field] = value` writes
      into the entry object itself. */
  method SharedMediaEdit(media: seq<MediaObject>, index: int, field: MediaField, value: string)
    returns (updatedMedia: seq<MediaObject>)
    modifies if 0 <= index < |media| then {media[index]} else {}
    ensures updatedMedia == media
    ensures 0 <= index < |media| ==>
      Media(media[index].url, media[index].alt) ==
      SetField(old(Media(media[index].url, media[index].alt)), field, value)
  {
    updatedMedia := media;
    if 0 <= index < |media| {
      match field
      case Url => updatedMedia[index].url := value;
      case Alt => updatedMedia[index].alt := value;
    }
  }

  /** The editor as written, from the load of `venueData` to a submit after
      one media edit: the edit reaches `originalVenue` through the shared entry,
      so the guard reports no change although the user changed an image. */
  method MediaEditGoesUnnoticed(venueData: Form, index: int, field: MediaField, value: string,
                                parses: string -> bool)
    returns (edited: seq<Media>, result: SubmitResult)
    ensures result == NoChanges
    ensures |edited| == |venueData.media|
    ensures 0 <= index < |venueData.media| ==>
      edited[index] == SetField(venueData.media[index], field, value)
    ensures (0 <= index < |venueData.media| &&
             SetField(venueData.media[index], field, value) != venueData.media[index]) ==>
      edited != venueData.media
  {
    var objs := MakeObjects(venueData.media);
    var formMedia, originalMedia := objs, objs;
    ghost var before := if 0 <= index < |objs| then Media(objs[index].url, objs[index].alt) else BlankMedia;
    if 0 <= index < |objs| {
      SnapshotAt(objs, index);
      assert before == venueData.media[index];
      assert formMedia[index] in objs;
    }
    var updated := SharedMediaEdit(formMedia, index, field, value);
    edited := Snapshot(updated);
    if 0 <= index < |objs| {
      assert Media(updated[index].url, updated[index].alt) == SetField(before, field, value);
      SnapshotAt(updated, index);
    }
    var formNow := venueData.(media := edited);
    var originalNow := venueData.(media := Snapshot(originalMedia));
    assert formNow == originalNow;
    result := SubmitFor(formNow, Some(originalNow), parses);
  }
}
