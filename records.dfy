/** The user object the screens pass around and the profile form's
    five-field edit buffer. */
module Records {

  datatype Option<T> = None | Some(value: T)

  /** The keys a user object and the profile form share. */
  datatype Field = Name | Email | Phone | Bio | Location

  const AllFields: set<Field> := {Name, Email, Phone, Bio, Location}

  lemma EveryFieldListed()
    ensures forall f: Field :: f in AllFields
  {
    forall f: Field ensures f in AllFields {
      match f
      case Name =>
      case Email =>
      case Phone =>
      case Bio =>
      case Location =>
    }
  }

  /** A user object: the keys it carries and the string under each. A key
      the object lacks is absent from the map, and spreading one object
      over another (`{...p, ...q}`) is the map union `p + q`. */
  type UserRecord = map<Field, string>

  /** The profile form's buffer: one string per input. */
  datatype FormData = FormData(name: string, email: string, phone: string, bio: string, location: string)
  {
    /** The value bound to the input named `f`. */
    function Get(f: Field): string {
      match f
      case Name => name
      case Email => email
      case Phone => phone
      case Bio => bio
      case Location => location
    }

    /** `{...this, [f]: v}`: input `f` now holds `v`, every other input
        keeps its value. */
    function Set(f: Field, v: string): (d: FormData)
      ensures d.Get(f) == v
      ensures forall g :: g != f ==> d.Get(g) == Get(g)
    {
      match f
      case Name => this.(name := v)
      case Email => this.(email := v)
      case Phone => this.(phone := v)
      case Bio => this.(bio := v)
      case Location => this.(location := v)
    }
  }

  /** An error object read at one key: the message it holds there, or
      `None` when the key is absent. Both forms' error objects are read
      this way. */
  function Verdict<K>(errors: map<K, string>, f: K): Option<string> {
    if f in errors then Some(errors[f]) else None
  }

  /** The buffer the profile form starts from before any user arrives. */
  const EmptyForm := FormData("", "", "", "", "")

  /** `u[f] || ""`: the string under `f`, or "" when the key is missing. */
  function Lookup(u: UserRecord, f: Field): string {
    if f in u then u[f] else ""
  }

  /** The buffer seeded from a user object: each input takes the user's
      value under its key, and a missing key gives "". */
  function Seed(u: UserRecord): (d: FormData)
    ensures forall f :: d.Get(f) == Lookup(u, f)
  {
    FormData(Lookup(u, Name), Lookup(u, Email), Lookup(u, Phone), Lookup(u, Bio), Lookup(u, Location))
  }

  /** The buffer as the object handed to a save callback: all five keys,
      each with the input's value. */
  function ToRecord(d: FormData): (u: UserRecord)
    ensures u.Keys == AllFields
    ensures forall f :: f in u && u[f] == d.Get(f)
  {
    EveryFieldListed();
    map[Name := d.name, Email := d.email, Phone := d.phone, Bio := d.bio, Location := d.location]
  }

  /** Seeding from the object a buffer was saved as gives the buffer back. */
  lemma SeedToRecord(d: FormData)
    ensures Seed(ToRecord(d)) == d
  {
  }

  /** A user object carrying all five keys survives a trip through the
      buffer unchanged. */
  lemma ToRecordSeed(u: UserRecord)
    requires u.Keys == AllFields
    ensures ToRecord(Seed(u)) == u
  {
    var r := ToRecord(Seed(u));
    forall f | f in u ensures r[f] == u[f] {
      assert Seed(u).Get(f) == Lookup(u, f);
    }
  }
}
