/**
 * The emergency-contact form: phone number sanitising, the name and phone
 * checks, and the reset after a contact is added.
 */
module ContactForm {
  import opened Wrappers
  import opened Text

  /** The dialling code of the Philippines, the form's default country. */
  const Philippines: string := "+63"

  /** The contact the form hands on (its other fields are not part of this model). */
  datatype EmergencyContact = EmergencyContact(name: string, phone: string, countryCode: string)

  /**
   * `sanitizePhoneNumberInput`: the digits of the text, and for the
   * Philippines one leading zero dropped from a number of two or more digits.
   */
  function SanitizePhone(raw: string, countryCode: string): (r: string)
    ensures AllDigits(r) && |r| <= |raw|
    ensures countryCode != Philippines ==> r == DigitsOnly(raw)
    ensures countryCode == Philippines && |DigitsOnly(raw)| > 1 && DigitsOnly(raw)[0] == '0' ==> r == DigitsOnly(raw)[1..]
    ensures countryCode == Philippines && !(|DigitsOnly(raw)| > 1 && DigitsOnly(raw)[0] == '0') ==> r == DigitsOnly(raw)
  {
    var digitsOnly := DigitsOnly(raw);
    if countryCode == Philippines && |digitsOnly| > 1 && digitsOnly[0] == '0' then digitsOnly[1..] else digitsOnly
  }

  /** Outside the Philippines, sanitising twice is sanitising once. */
  lemma SanitizeIdempotentElsewhere(raw: string, countryCode: string)
    requires countryCode != Philippines
    ensures SanitizePhone(SanitizePhone(raw, countryCode), countryCode) == SanitizePhone(raw, countryCode)
  {
    DigitsOnlyOfDigits(SanitizePhone(raw, countryCode));
  }

  /** For the Philippines, a sanitised number is stable unless it still starts with a zero. */
  lemma SanitizePhilippinesAgain(raw: string)
    ensures var once := SanitizePhone(raw, Philippines);
      SanitizePhone(once, Philippines) == if |once| > 1 && once[0] == '0' then once[1..] else once
  {
    DigitsOnlyOfDigits(SanitizePhone(raw, Philippines));
  }

  /**
   * For the Philippines, a number with two leading zeros (a pasted "0012",
   * say) loses one zero per pass, so sanitising is not idempotent.
   */
  lemma SanitizePhilippinesNotIdempotent(s: string)
    requires AllDigits(s) && |s| > 2 && s[0] == '0' && s[1] == '0'
    ensures SanitizePhone(s, Philippines) == s[1..]
    ensures SanitizePhone(s[1..], Philippines) == s[2..]
    ensures SanitizePhone(SanitizePhone(s, Philippines), Philippines) != SanitizePhone(s, Philippines)
  {
    DigitsOnlyOfDigits(s);
    DigitsOnlyOfDigits(s[1..]);
    assert s[1..][1..] == s[2..];
  }

  /** The name message: required, then at least two UTF-16 units, counted before trimming. */
  function NameError(name: string): (e: string)
    ensures e == "" <==> !IsBlank(name) && Utf16Length(name) >= 2
    ensures IsBlank(name) ==> e == "Contact name is required"
  {
    if IsBlank(name) then "Contact name is required"
    else if Utf16Length(name) < 2 then "Name must be at least 2 characters"
    else ""
  }

  /** The phone message, checked in order: required, length, digits only, already known. */
  function PhoneError(phone: string, isPhoneNumberExists: string -> bool): (e: string)
    ensures e == "" <==> !IsBlank(phone) && |phone| >= 7 && AllDigits(phone) && !isPhoneNumberExists(phone)
    ensures !IsBlank(phone) && Utf16Length(phone) < 7 ==> e == "Phone number must be at least 7 digits"
    ensures IsBlank(phone) ==> e == "Phone number is required"
  {
    if IsBlank(phone) then "Phone number is required"
    else if Utf16Length(phone) < 7 then "Phone number must be at least 7 digits"
    else if !AllDigits(phone) then "Phone number must contain only digits"
    else if isPhoneNumberExists(phone) then "This phone number already exists"
    else ""
  }

  /** A name of blanks around one letter passes, because the length is taken before trimming. */
  lemma PaddedSingleLetterPasses()
    ensures NameError(" a") == ""
    ensures |Trim(" a")| == 1
  {
    assert !IsWhitespace(" a"[1]);
    assert TrimStart(" a") == "a" by {
      assert " a"[1..] == "a";
    }
    assert TrimEnd("a") == "a";
  }
  /** One character beyond the Basic Multilingual Plane is two UTF-16 units, so it is long enough. */
  lemma SingleEmojiNamePasses()
    ensures NameError("\U{1F600}") == ""
  {
    assert Utf16Length("\U{1F600}") == 2 by {
      assert "\U{1F600}"[1..] == [];
    }
  }


  /** The number the phone field starts from: the edited contact's, sanitised for the country, or none. */
  function InitialPhone(editing: Option<EmergencyContact>, countryCode: string): (r: string)
    ensures AllDigits(r)
    ensures editing.None? ==> r == ""
  {
    if editing.Some? then SanitizePhone(editing.value.phone, countryCode) else ""
  }

  /**
   * The number after a country is picked, as the form is written: the field's
   * state is keyed on the country, so a different country re-creates it from
   * `InitialPhone` and the number sanitised by the handler is discarded; the
   * same country keeps the handler's result.
   */
  function PhoneAfterCountryChangeAsWritten(editing: Option<EmergencyContact>, oldCode: string, newCode: string,
                                            phone: string): (r: string)
    ensures AllDigits(r)
    ensures newCode != oldCode && editing.None? ==> r == ""
  {
    if newCode != oldCode then InitialPhone(editing, newCode) else SanitizePhone(phone, newCode)
  }

  /**
   * On a new contact, switching to another country that is not the
   * Philippines empties a typed number that the handler would have kept whole.
   */
  lemma SwitchingCountryDropsTypedNumber(phone: string, oldCode: string, newCode: string)
    requires AllDigits(phone) && phone != [] && newCode != oldCode && newCode != Philippines
    ensures PhoneAfterCountryChangeAsWritten(None, oldCode, newCode, phone) == ""
    ensures SanitizePhone(phone, newCode) == phone && phone != ""
  {
    DigitsOnlyOfDigits(phone);
  }

  class AddContactForm {
    var name: string
    var phone: string
    var countryCode: string
    var nameError: string
    var phoneError: string

    /** The field only ever holds a sanitised number. */
    predicate Valid()
      reads this
    {
      AllDigits(phone)
    }

    /**
     * Opens on the edited contact (its country code when it is a known one,
     * else the Philippines) or on an empty form.
     */
    constructor(editing: Option<EmergencyContact>, knownCodes: seq<string>)
      ensures editing.None? ==> name == "" && phone == "" && countryCode == Philippines
      ensures editing.Some? ==> (name == editing.value.name &&
        countryCode == (if editing.value.countryCode in knownCodes then editing.value.countryCode else Philippines) &&
        phone == SanitizePhone(editing.value.phone, countryCode))
      ensures nameError == "" && phoneError == ""
      ensures Valid()
    {
      nameError, phoneError := "", "";
      match editing
      case None =>
        name, phone, countryCode := "", "", Philippines;
      case Some(c) =>
        var code := if c.countryCode in knownCodes then c.countryCode else Philippines;
        name, countryCode, phone := c.name, code, SanitizePhone(c.phone, code);
    }

    method EditName(newValue: string)
      requires Valid()
      modifies this
      ensures Valid()
      ensures name == newValue && nameError == ""
      ensures phone == old(phone) && countryCode == old(countryCode) && phoneError == old(phoneError)
    {
      name := newValue;
      nameError := "";
    }

    /** Typing a phone number keeps only its sanitised form. */
    method EditPhone(newValue: string)
      modifies this
      ensures Valid()
      ensures phone == SanitizePhone(newValue, countryCode) && phoneError == ""
      ensures name == old(name) && countryCode == old(countryCode) && nameError == old(nameError)
    {
      phone := SanitizePhone(newValue, countryCode);
      phoneError := "";
    }

    /**
     * Choosing a country sanitises the number again for it, as the handler
     * intends: the number is kept, less one leading zero for the Philippines.
     */
    method SelectCountry(code: string)
      requires Valid()
      modifies this
      ensures Valid()
      ensures countryCode == code && phone == SanitizePhone(old(phone), code)
      ensures code != Philippines ==> phone == old(phone)
      ensures name == old(name) && nameError == old(nameError) && phoneError == old(phoneError)
    {
      DigitsOnlyOfDigits(phone);
      countryCode := code;
      phone := SanitizePhone(phone, code);
    }

    /** `validateForm`: sets both messages; valid exactly when both are empty. */
    method ValidateForm(isPhoneNumberExists: string -> bool) returns (isValid: bool)
      modifies this
      ensures name == old(name) && phone == old(phone) && countryCode == old(countryCode)
      ensures nameError == NameError(name) && phoneError == PhoneError(phone, isPhoneNumberExists)
      ensures isValid <==> nameError == "" && phoneError == ""
    {
      isValid := true;
      if IsBlank(name) {
        isValid := false;
        nameError := "Contact name is required";
      } else if Utf16Length(name) < 2 {
        isValid := false;
        nameError := "Name must be at least 2 characters";
      } else {
        nameError := "";
      }
      if IsBlank(phone) {
        isValid := false;
        phoneError := "Phone number is required";
      } else if Utf16Length(phone) < 7 {
        isValid := false;
        phoneError := "Phone number must be at least 7 digits";
      } else if !AllDigits(phone) {
        isValid := false;
        phoneError := "Phone number must contain only digits";
      } else if isPhoneNumberExists(phone) {
        isValid := false;
        phoneError := "This phone number already exists";
      } else {
        phoneError := "";
      }
    }

    /**
     * The Add button: a valid form yields the contact with the trimmed name
     * and clears the name and number and resets the country to the Philippines.
     */
    method SubmitAdd(isPhoneNumberExists: string -> bool) returns (added: Option<EmergencyContact>)
      requires Valid()
      modifies this
      ensures Valid()
      ensures added.Some? <==> NameError(old(name)) == "" && PhoneError(old(phone), isPhoneNumberExists) == ""
      ensures added.Some? ==> added.value == EmergencyContact(Trim(old(name)), old(phone), old(countryCode))
      ensures added.Some? ==> name == "" && phone == "" && countryCode == Philippines
      ensures added.None? ==> name == old(name) && phone == old(phone) && countryCode == old(countryCode)
      ensures nameError == NameError(old(name)) && phoneError == PhoneError(old(phone), isPhoneNumberExists)
    {
      var ok := ValidateForm(isPhoneNumberExists);
      if ok {
        added := Some(EmergencyContact(Trim(name), phone, countryCode));
        name := "";
        phone := "";
        countryCode := Philippines;
      } else {
        added := None;
      }
    }

    /** The Update button: a valid form yields the edited contact with the form's values. */
    method SubmitEdit(isPhoneNumberExists: string -> bool) returns (updated: Option<EmergencyContact>)
      modifies this
      ensures name == old(name) && phone == old(phone) && countryCode == old(countryCode)
      ensures updated.Some? <==> NameError(name) == "" && PhoneError(phone, isPhoneNumberExists) == ""
      ensures updated.Some? ==> updated.value == EmergencyContact(Trim(name), phone, countryCode)
      ensures nameError == NameError(name) && phoneError == PhoneError(phone, isPhoneNumberExists)
    {
      var ok := ValidateForm(isPhoneNumberExists);
      updated := if ok then Some(EmergencyContact(Trim(name), phone, countryCode)) else None;
    }
  }
}
