/**
 * The "Purchase New Ticket" form: ten text fields, the required-field and
 * price checks, the error map they produce, and the submit gate.
 */
module CreateTicketPage {
  import opened Wrappers
  import opened Text

  /** The form's inputs, by their `name` attribute. */
  datatype CreateField =
    Title | TypeField | Section | Row | Seat | Price | EventDate | Venue | Artist | Description

  datatype CreateForm = CreateForm(
    title: string, ticketType: string, section: string, row: string, seat: string,
    price: string, eventDate: string, venue: string, artist: string, description: string)

  /** The form as the page first shows it: everything empty, type `Standard`. */
  const InitialForm := CreateForm("", "Standard", "", "", "", "", "", "", "", "")

  /** The fields `validateForm` looks at; `type` and `description` are never checked. */
  const CheckedFields: set<CreateField> := {Title, Section, Row, Seat, Price, EventDate, Venue, Artist}

  function Value(form: CreateForm, field: CreateField): string {
    match field
    case Title => form.title
    case TypeField => form.ticketType
    case Section => form.section
    case Row => form.row
    case Seat => form.seat
    case Price => form.price
    case EventDate => form.eventDate
    case Venue => form.venue
    case Artist => form.artist
    case Description => form.description
  }

  /** `{ ...prev, [name]: value }`. */
  function WithValue(form: CreateForm, field: CreateField, value: string): (r: CreateForm)
    ensures Value(r, field) == value
    ensures forall g :: g != field ==> Value(r, g) == Value(form, g)
  {
    match field
    case Title => form.(title := value)
    case TypeField => form.(ticketType := value)
    case Section => form.(section := value)
    case Row => form.(row := value)
    case Seat => form.(seat := value)
    case Price => form.(price := value)
    case EventDate => form.(eventDate := value)
    case Venue => form.(venue := value)
    case Artist => form.(artist := value)
    case Description => form.(description := value)
  }

  /** The message for a blank checked field; `type` and `description` are never checked and have none. */
  function RequiredMessage(field: CreateField): string {
    match field
    case Title => "Title is required"
    case Section => "Section is required"
    case Row => "Row is required"
    case Seat => "Seat is required"
    case Price => "Price is required"
    case EventDate => "Event date is required"
    case Venue => "Venue is required"
    case Artist => "Artist is required"
    case TypeField => ""
    case Description => ""
  }

  /**
   * The message `validateForm` records for one field, if any: a checked field
   * that is blank after trimming gets its required message; a non-blank price
   * that `parseFloat` turns into NaN gets the number message.
   */
  function FieldError(form: CreateForm, field: CreateField): (e: Option<string>)
    ensures e.Some? <==> field in CheckedFields
                         && (AllSpace(Value(form, field)) || (field == Price && !ParsesAsNumber(form.price)))
    ensures e.Some? ==> e.value == if field == Price && !AllSpace(form.price)
                                   then "Price must be a valid number" else RequiredMessage(field)
  {
    match field
    case TypeField => None
    case Description => None
    case Price =>
      if Trim(form.price) == [] then Some("Price is required")
      else if !ParsesAsNumber(form.price) then Some("Price must be a valid number")
      else None
    case _ => if Trim(Value(form, field)) == [] then Some(RequiredMessage(field)) else None
  }

  /** The entries `e` yields for the given keys. */
  function Collect<K, V>(e: K -> Option<V>, keys: set<K>): map<K, V> {
    map k | k in keys && e(k).Some? :: e(k).value
  }

  /** Looking at one more key adds its entry, if it has one, to the map so far. */
  lemma CollectAdd<K, V>(e: K -> Option<V>, keys: set<K>, key: K)
    ensures Collect(e, keys + {key}) == if e(key).Some? then Collect(e, keys)[key := e(key).value] else Collect(e, keys)
  {
  }

  /** Records the entry `e` yields for `key`, if any, on top of `m`. */
  function Record<K, V>(m: map<K, V>, e: K -> Option<V>, key: K): map<K, V> {
    match e(key)
    case None => m
    case Some(v) => m[key := v]
  }

  /** The map built by recording the keys one after another, starting from an empty map. */
  function Steps<K, V>(e: K -> Option<V>, keys: seq<K>): map<K, V>
    decreases |keys|
  {
    if keys == [] then map[] else Record(Steps(e, keys[..|keys| - 1]), e, keys[|keys| - 1])
  }

  /** Extending the recorded prefix by one key records one more entry. */
  lemma StepsPrefix<K, V>(e: K -> Option<V>, keys: seq<K>, i: nat)
    requires i < |keys|
    ensures Steps(e, keys[..i + 1]) == Record(Steps(e, keys[..i]), e, keys[i])
  {
    assert keys[..i + 1][..i] == keys[..i];
  }

  /** Recording keys one at a time builds the same map as collecting the entries of all of them. */
  lemma {:induction false} StepsCollect<K, V>(e: K -> Option<V>, keys: seq<K>)
    ensures Steps(e, keys) == Collect(e, set k | k in keys)
    decreases |keys|
  {
    if keys != [] {
      var init := keys[..|keys| - 1];
      var last := keys[|keys| - 1];
      StepsCollect(e, init);
      assert (set k | k in keys) == (set k | k in init) + {last} by {
        assert keys == init + [last];
      }
      CollectAdd(e, (set k | k in init), last);
    }
  }

  function ErrorOf(form: CreateForm): CreateField -> Option<string> {
    f => FieldError(form, f)
  }

  /** The order in which `validateForm` looks at the fields. */
  const CheckOrder: seq<CreateField> := [Title, Section, Row, Seat, Price, EventDate, Venue, Artist]

  /** The error map `validateForm` builds from scratch: one entry per failing checked field, nothing else. */
  function ErrorsFor(form: CreateForm): (m: map<CreateField, string>)
    ensures m.Keys <= CheckedFields
    ensures forall f :: f in m <==>
      f in CheckedFields && (AllSpace(Value(form, f)) || (f == Price && !ParsesAsNumber(form.price)))
    ensures forall f :: f in m ==>
      m[f] == if f == Price && !AllSpace(form.price) then "Price must be a valid number" else RequiredMessage(f)
  {
    Collect(ErrorOf(form), CheckedFields)
  }

  /** Checking the fields in the page's order yields exactly `ErrorsFor`. */
  lemma ChecksInOrder(form: CreateForm)
    ensures Steps(ErrorOf(form), CheckOrder) == ErrorsFor(form)
  {
    StepsCollect(ErrorOf(form), CheckOrder);
    assert (set f | f in CheckOrder) == CheckedFields;
  }

  /** The form passes exactly when every checked field has non-blank text and the price parses. */
  lemma NoErrorsMeansComplete(form: CreateForm)
    ensures ErrorsFor(form) == map[] <==>
      (forall f :: f in CheckedFields ==> !AllSpace(Value(form, f))) && ParsesAsNumber(form.price)
  {
    var m := ErrorsFor(form);
    if m == map[] {
      forall f | f in CheckedFields ensures !AllSpace(Value(form, f)) {
        assert f !in m;
      }
      assert Price !in m;
    } else {
      var f :| f in m;
      assert f in CheckedFields;
    }
  }

  class CreateTicketForm {
    var form: CreateForm
    var errors: map<CreateField, string>
    var isSubmitting: bool

    /** The page opens on the blank form (type `Standard`), with no errors and no purchase under way. */
    constructor ()
      ensures form == InitialForm && errors == map[] && !isSubmitting
      ensures forall f :: f in CheckedFields ==> Value(form, f) == []
    {
      form := InitialForm;
      errors := map[];
      isSubmitting := false;
    }

    /** `handleChange`: sets the edited field, and drops that field's error if it has one; other errors stay. */
    method HandleChange(field: CreateField, value: string)
      modifies this
      ensures form == WithValue(old(form), field, value)
      ensures errors == if field in old(errors) && old(errors)[field] != [] then old(errors) - {field} else old(errors)
      ensures field in old(errors) && old(errors)[field] != [] ==> field !in errors
      ensures forall g :: g != field ==> (g in errors <==> g in old(errors)) && (g in errors ==> errors[g] == old(errors)[g])
      ensures isSubmitting == old(isSubmitting)
    {
      form := WithValue(form, field, value);
      if field in errors && errors[field] != [] {
        errors := errors - {field};
      }
    }

    /** `validateForm`: replaces the error map (never merges) and reports whether it is empty. */
    method ValidateForm() returns (valid: bool)
      modifies this
      ensures form == old(form) && isSubmitting == old(isSubmitting)
      ensures errors == ErrorsFor(form)
      ensures valid <==> errors == map[]
    {
      var newErrors: map<CreateField, string> := map[];
      for i := 0 to |CheckOrder|
        invariant form == old(form) && isSubmitting == old(isSubmitting)
        invariant newErrors == Steps(ErrorOf(form), CheckOrder[..i])
      {
        var field := CheckOrder[i];
        var error := FieldError(form, field);
        if error.Some? {
          newErrors := newErrors[field := error.value];
        }
        StepsPrefix(ErrorOf(form), CheckOrder, i);
      }
      assert CheckOrder[..|CheckOrder|] == CheckOrder;
      ChecksInOrder(form);
      errors := newErrors;
      valid := newErrors == map[];
    }

    /** `handleSubmit`: stops when validation fails; otherwise the purchase starts. */
    method HandleSubmit() returns (submitted: bool)
      modifies this
      ensures form == old(form)
      ensures errors == ErrorsFor(form)
      ensures submitted <==> ErrorsFor(form) == map[]
      ensures isSubmitting == (old(isSubmitting) || submitted)
    {
      submitted := ValidateForm();
      if submitted {
        isSubmitting := true;
      }
    }
  }

  /** A form whose checked fields are all empty is refused with all eight "required" messages. */
  lemma BlankFormRefused(form: CreateForm)
    requires forall f :: f in CheckedFields ==> Value(form, f) == []
    ensures ErrorsFor(form).Keys == CheckedFields
    ensures forall f :: f in CheckedFields ==> ErrorsFor(form)[f] == RequiredMessage(f)
  {
    var m := ErrorsFor(form);
    forall f | f in CheckedFields
      ensures f in m && m[f] == RequiredMessage(f)
    {
      assert AllSpace(Value(form, f));
    }
  }
}
