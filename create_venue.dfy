/** The venue creation form (src/components/CreateVenue/index.jsx): its
    initial state, the handlers it shares with the editor, and the shape of
    the POST body. */
module CreateVenue {
  import opened Js
  import opened VenueForms

  /** The initial `formData`: empty text, one blank image, every amenity off,
      and a location with only a city and a country. */
  function InitialForm(): Form {
    Form(map["name" := Str(""), "description" := Str(""), "price" := Str(""),
             "maxGuests" := Str(""), "rating" := Str("")],
         [BlankMedia],
         map["wifi" := Bool(false), "parking" := Bool(false), "breakfast" := Bool(false),
             "pets" := Bool(false)],
         map["city" := Str(""), "country" := Str("")])
  }

  /** The initial form has one blank image, all four amenities false, and
      routes only `city` and `country` into the location. */
  lemma InitialFormShape()
    ensures InitialForm().media == [BlankMedia]
    ensures InitialForm().meta.Keys == {"wifi", "parking", "breakfast", "pets"}
    ensures forall k :: k in InitialForm().meta ==> InitialForm().meta[k] == Bool(false)
    ensures InitialForm().location.Keys == {"city", "country"}
    ensures forall k :: k in InitialForm().fields ==> InitialForm().fields[k] == Str("")
  {
  }

  /** The top-level fields `...formData` contributes that the body does not
      overwrite. */
  function SpreadFields(fields: map<string, Value>): map<string, Value> {
    map k | k in fields && k != "price" && k != "maxGuests" && k != "rating" :: fields[k]
  }

  /** The POST body of `handleSubmit`; `CreateVenueForm.HandleSubmit`
      returns exactly this. */
  function CreatePayload(f: Form, parses: string -> bool): Payload {
    Payload(SpreadFields(f.fields), ToNumber(Get(f.fields, "price")), ToNumber(Get(f.fields, "maxGuests")),
            RatingOf(Get(f.fields, "rating")), FilterMedia(f.media, parses), f.meta, f.location)
  }

  /** Every top-level field but the three numbers is copied unchanged; the
      numbers are converted, an empty rating is sent as 0, the media keep only
      entries with a URL that is not blank and that parses, and the amenities
      and location go as they are. */
  lemma CreatePayloadShape(f: Form, parses: string -> bool)
    ensures var p := CreatePayload(f, parses);
      p.fields.Keys == f.fields.Keys - {"price", "maxGuests", "rating"} &&
      (forall k :: k in p.fields ==> p.fields[k] == f.fields[k]) &&
      p.price == ToNumber(Get(f.fields, "price")) &&
      p.maxGuests == ToNumber(Get(f.fields, "maxGuests")) &&
      (!Truthy(Get(f.fields, "rating")) ==> p.rating == Some(0)) &&
      (forall m :: m in p.media <==> m in f.media && !IsBlank(m.url) && parses(m.url)) &&
      p.meta == f.meta && p.location == f.location
  {
    forall m ensures m in CreatePayload(f, parses).media <==> m in f.media && !IsBlank(m.url) && parses(m.url) {
      FilterMediaMembers(f.media, parses, m);
    }
  }

  /** Submitting the untouched form sends empty text, 0 for every number and
      no image. */
  lemma UntouchedFormPayload(parses: string -> bool)
    ensures var p := CreatePayload(InitialForm(), parses);
      p.price == Some(0) && p.maxGuests == Some(0) && p.rating == Some(0) && p.media == [] &&
      p.fields == map["name" := Str(""), "description" := Str("")]
  {
    var f := InitialForm();
    assert IsBlank("");
    assert !Keeps(BlankMedia, parses) by { TrimEmptyIffBlank(""); }
    assert FilterMedia(f.media, parses) == [] by {
      var keep := KeepsWith(parses);
      assert f.media[1..] == [] && FilterSeq([], keep) == [];
      assert !keep(f.media[0]);
    }
  }

  /** The creation form's state: `formData`. */
  class CreateVenueForm {
    var form: Form

    constructor ()
      ensures form == InitialForm()
    {
      form := InitialForm();
    }

    /** `handleChange`. */
    method HandleChange(e: ChangeEvent)
      modifies this
      ensures form == ApplyChange(old(form), e)
    {
      form := ApplyChange(form, e);
    }

    /** `handleMediaChange`. The entry object is written in place, but no
        other state holds it, so the new form is the updated list. */
    method HandleMediaChange(index: int, field: MediaField, value: string)
      modifies this
      ensures form == old(form).(media := UpdateMedia(old(form).media, index, field, value))
    {
      form := form.(media := UpdateMedia(form.media, index, field, value));
    }

    /** `addMediaField`: one blank entry at the end, the others unchanged. */
    method AddMediaField()
      modifies this
      ensures form == old(form).(media := old(form).media + [BlankMedia])
    {
      form := form.(media := form.media + [BlankMedia]);
    }

    /** `handleSubmit`, up to the body it would POST. */
    method HandleSubmit(parses: string -> bool) returns (p: Payload)
      ensures p == CreatePayload(form, parses)
      ensures |p.media| <= |form.media|
    {
      FilterSeqShorter(form.media, KeepsWith(parses));
      p := CreatePayload(form, parses);
    }
  }
}
