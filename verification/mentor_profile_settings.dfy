/** The mentor's profile settings form: the fields filled in from the
    signed-in user's name, the weekly availability grid, the currency list
    behind the rate preview, and the save button's state. */
module MentorProfileSettings {
  import opened Text
  import opened Seqs

  datatype Day = Monday | Tuesday | Wednesday | Thursday | Friday | Saturday | Sunday

  /** One day of the availability grid. */
  datatype Slot = Slot(available: bool, startTime: string, endTime: string)

  /** Every day starts unavailable, nine to five. */
  const DefaultSlot: Slot := Slot(false, "09:00", "17:00")

  const Week: set<Day> := {Monday, Tuesday, Wednesday, Thursday, Friday, Saturday, Sunday}

  /** profileData */
  datatype Profile = Profile(
    firstName: string,
    lastName: string,
    bio: string,
    expertise: string,
    yearsExperience: string,
    hourlyRate: string,
    currency: string,
    availability: map<Day, Slot>)

  /** The text fields `handleInputChange` is called with. */
  datatype ProfileField = FirstName | LastName | Bio | Expertise | YearsExperience | HourlyRate | Currency

  /** The three inputs of a day's row: the checkbox and the two times. */
  datatype SlotChange = SetAvailable(available: bool) | SetStartTime(start: string) | SetEndTime(end: string)

  /** `user?.name?.split(' ')[0] || ''` and `[1] || ''` */
  function NameParts(name: Option<string>): (r: (string, string))
    ensures name.None? ==> r == ("", "")
    ensures name.Some? ==> r.0 == Split(name.value, ' ')[0]
    ensures name.Some? && |Split(name.value, ' ')| == 1 ==> r.1 == ""
    ensures name.Some? && |Split(name.value, ' ')| > 1 ==> r.1 == Split(name.value, ' ')[1]
  {
    match name
    case None => ("", "")
    case Some(n) =>
      var parts := Split(n, ' ');
      (parts[0], if |parts| > 1 then parts[1] else "")
  }

  /** "First Last" splits into the two names; a single word is a first name
      with an empty last name. */
  lemma NamePartsOfTwoWords(first: string, last: string)
    requires ' ' !in first && ' ' !in last
    ensures NameParts(Some(first + " " + last)) == (first, last)
    ensures NameParts(Some(first)) == (first, "")
  {
    SplitAfterWord(first, ' ', last);
    SplitWithoutSep(last, ' ');
    assert first + " " + last == first + [' '] + last;
    SplitWithoutSep(first, ' ');
  }

  /** The form's starting state for a signed-in user's name. */
  function InitialProfile(name: Option<string>): (p: Profile)
    ensures (p.firstName, p.lastName) == NameParts(name)
    ensures p.bio == p.expertise == p.yearsExperience == p.hourlyRate == ""
    ensures p.currency == "USD"
    ensures p.availability.Keys == Week
    ensures forall d :: d in p.availability ==> p.availability[d] == DefaultSlot
  {
    var (first, last) := NameParts(name);
    Profile(first, last, "", "", "", "", "USD", map d | d in Week :: DefaultSlot)
  }

  /** `{ ...prev, [field]: value }` */
  function SetField(p: Profile, field: ProfileField, value: string): (r: Profile)
    ensures r.availability == p.availability
    ensures r.firstName == (if field == FirstName then value else p.firstName)
    ensures r.lastName == (if field == LastName then value else p.lastName)
    ensures r.bio == (if field == Bio then value else p.bio)
    ensures r.expertise == (if field == Expertise then value else p.expertise)
    ensures r.yearsExperience == (if field == YearsExperience then value else p.yearsExperience)
    ensures r.hourlyRate == (if field == HourlyRate then value else p.hourlyRate)
    ensures r.currency == (if field == Currency then value else p.currency)
  {
    match field
    case FirstName => p.(firstName := value)
    case LastName => p.(lastName := value)
    case Bio => p.(bio := value)
    case Expertise => p.(expertise := value)
    case YearsExperience => p.(yearsExperience := value)
    case HourlyRate => p.(hourlyRate := value)
    case Currency => p.(currency := value)
  }

  /** One input of a day's row: that input changes, the others keep. */
  function ChangeSlot(s: Slot, c: SlotChange): (r: Slot)
    ensures r.available == (if c.SetAvailable? then c.available else s.available)
    ensures r.startTime == (if c.SetStartTime? then c.start else s.startTime)
    ensures r.endTime == (if c.SetEndTime? then c.end else s.endTime)
  {
    match c
    case SetAvailable(b) => s.(available := b)
    case SetStartTime(t) => s.(startTime := t)
    case SetEndTime(t) => s.(endTime := t)
  }

  /** handleAvailabilityChange on the profile: only the named day's slot
      changes, and the grid keeps its seven days. */
  function ChangeAvailability(p: Profile, day: Day, c: SlotChange): (r: Profile)
    requires day in p.availability
    ensures r.availability.Keys == p.availability.Keys
    ensures r.availability[day] == ChangeSlot(p.availability[day], c)
    ensures forall d :: d in p.availability && d != day ==> r.availability[d] == p.availability[d]
    ensures r.(availability := p.availability) == p
  {
    p.(availability := p.availability[day := ChangeSlot(p.availability[day], c)])
  }

  /** Turning a day on and then off again leaves the grid as it was, when
      the day started off. */
  lemma AvailabilityToggleBack(p: Profile, day: Day)
    requires day in p.availability && !p.availability[day].available
    ensures ChangeAvailability(ChangeAvailability(p, day, SetAvailable(true)), day, SetAvailable(false)) == p
  {
    var q := ChangeAvailability(ChangeAvailability(p, day, SetAvailable(true)), day, SetAvailable(false));
    assert q.availability == p.availability;
  }

  datatype CurrencyInfo = CurrencyInfo(code: string, symbol: string, name: string)

  /** The currency picker's list. */
  const Currencies: seq<CurrencyInfo> := [
    CurrencyInfo("USD", "$", "US Dollar"),
    CurrencyInfo("EUR", "€", "Euro"),
    CurrencyInfo("GBP", "£", "British Pound"),
    CurrencyInfo("CAD", "C$", "Canadian Dollar"),
    CurrencyInfo("AUD", "A$", "Australian Dollar"),
    CurrencyInfo("INR", "₹", "Indian Rupee"),
    CurrencyInfo("JPY", "¥", "Japanese Yen"),
    CurrencyInfo("SGD", "S$", "Singapore Dollar")
  ]

  /** The codes in the list are distinct, so each names one symbol. */
  lemma CurrencyCodesDistinct()
    ensures forall i, j :: 0 <= i < j < |Currencies| ==> Currencies[i].code != Currencies[j].code
  {
  }

  /** `currencies.find(c => c.code === code)?.symbol`, with `undefined`
      rendered as nothing: a listed code shows its own symbol. */
  function CurrencySymbol(code: string): (r: string)
    ensures forall i :: 0 <= i < |Currencies| && Currencies[i].code == code ==> r == Currencies[i].symbol
    ensures (forall i :: 0 <= i < |Currencies| ==> Currencies[i].code != code) ==> r == ""
  {
    CurrencyCodesDistinct();
    match Find(Currencies, (c: CurrencyInfo) => c.code == code)
    case Some(c) => c.symbol
    case None => ""
  }

  lemma KnownSymbols()
    ensures CurrencySymbol("USD") == "$"
    ensures CurrencySymbol("EUR") == "€"
    ensures CurrencySymbol("SGD") == "S$"
  {
    assert Currencies[0].code == "USD";
    assert Currencies[1].code == "EUR";
    assert Currencies[7].code == "SGD";
  }

  /** An unlisted code shows no symbol. */
  lemma UnknownSymbol()
    ensures CurrencySymbol("XYZ") == ""
  {
    forall i | 0 <= i < |Currencies| ensures Currencies[i].code != "XYZ" {
      assert Currencies[i].code[0] != 'X';
    }
  }

  /** The rate preview: shown only when a rate and a currency are set. */
  function RatePreview(p: Profile): (r: Option<string>)
    ensures r.Some? <==> p.hourlyRate != "" && p.currency != ""
    ensures r.Some? ==> r.value == CurrencySymbol(p.currency) + p.hourlyRate + " per hour"
  {
    if p.hourlyRate != "" && p.currency != "" then Some(CurrencySymbol(p.currency) + p.hourlyRate + " per hour")
    else None
  }

  const SavedMessage: string := "Profile updated successfully!"

  class ProfileSettings {
    var profile: Profile
    var isLoading: bool
    var message: string

    /** The grid always has the seven days. */
    ghost predicate Valid()
      reads this
    {
      profile.availability.Keys == Week
    }

    constructor (name: Option<string>)
      ensures Valid() && profile == InitialProfile(name) && !isLoading && message == ""
    {
      profile := InitialProfile(name);
      isLoading := false;
      message := "";
    }

    /** handleInputChange */
    method HandleInputChange(field: ProfileField, value: string)
      requires Valid()
      modifies this
      ensures Valid() && profile == SetField(old(profile), field, value)
      ensures isLoading == old(isLoading) && message == old(message)
    {
      profile := SetField(profile, field, value);
    }

    /** handleAvailabilityChange */
    method HandleAvailabilityChange(day: Day, c: SlotChange)
      requires Valid()
      modifies this
      ensures Valid() && profile == ChangeAvailability(old(profile), day, c)
      ensures isLoading == old(isLoading) && message == old(message)
    {
      profile := ChangeAvailability(profile, day, c);
    }

    /** handleSave, once its simulated call has finished: the profile is
        kept, the success message shown, the button enabled again. */
    method Save()
      requires Valid()
      modifies this
      ensures Valid() && profile == old(profile)
      ensures message == SavedMessage && !isLoading
    {
      isLoading := true;
      message := "";
      message := SavedMessage;
      isLoading := false;
    }
  }
}
