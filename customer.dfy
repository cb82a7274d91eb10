/**
 * The customer registration form component: its form state, built by
 * `ngOnInit`, and the operations that change it in place.
 */
module Customer {
  import opened Wrappers
  import opened Validators
  import opened Messages

  /** A zip code control's value. `buildAddress` initialises it with the
      `Number` constructor function itself, not with a number; anything a
      user types replaces it with text. */
  datatype ZipCode = NumberConstructor | Entered(text: string)

  /** The value of one entry of the address list. */
  datatype Address = Address(
    addressType: string, street1: string, street2: string,
    city: string, state: string, zipCode: ZipCode)

  /** The default entry `buildAddress` creates. */
  function BuildAddress(): Address
  {
    Address("home", "", "", "", "", NumberConstructor)
  }

  /** The phone control: its value, its active rules and the error object its
      last validation produced. */
  datatype PhoneControl = PhoneControl(value: string, rules: set<Rule>, errors: Option<ErrorKeys>)
  {
    /** Its error object is the one its current rules give its value. */
    predicate Consistent() {
      rules <= {Required} && errors == RequiredErrors(rules, value)
    }
  }

  /** The rules phone must carry for a notification preference. */
  function PhoneRulesFor(notifyVia: string): set<Rule>
  {
    if notifyVia == "text" then {Required} else {}
  }

  /** `setNotification` on the phone control: set or clear its rules, then
      re-validate its unchanged value. */
  function WithNotification(p: PhoneControl, notifyVia: string): (q: PhoneControl)
    ensures q.Consistent()
    ensures q.value == p.value
  {
    var rules := PhoneRulesFor(notifyVia);
    PhoneControl(p.value, rules, RequiredErrors(rules, p.value))
  }

  /** After `setNotification(v)`, phone's rule set is exactly {required} when
      `v` is "text" and empty otherwise. */
  lemma NotificationSetsRules(p: PhoneControl, notifyVia: string)
    ensures notifyVia == "text" ==> WithNotification(p, notifyVia).rules == {Required}
    ensures notifyVia != "text" ==> WithNotification(p, notifyVia).rules == {}
  {
  }

  /** An empty phone is invalid after `setNotification(v)` exactly when `v`
      is "text", and a non-empty phone is then always valid. */
  lemma EmptyPhoneInvalidIffText(p: PhoneControl, notifyVia: string)
    ensures p.value == "" ==> (WithNotification(p, notifyVia).errors.Some? <==> notifyVia == "text")
    ensures p.value != "" ==> WithNotification(p, notifyVia).errors == None
  {
  }

  /** Applying the same notification preference twice is the same as
      applying it once. */
  lemma NotificationIdempotent(p: PhoneControl, notifyVia: string)
    ensures WithNotification(WithNotification(p, notifyVia), notifyVia) == WithNotification(p, notifyVia)
  {
  }

  /** The component's form state. */
  class CustomerForm {
    /** The rules the schema attaches once and for all. */
    const firstNameRules: seq<Rule>
    const lastNameRules: seq<Rule>
    const emailRules: seq<Rule>
    const confirmEmailRules: seq<Rule>
    const emailGroupValidator: Group -> Option<ErrorKeys>
    const ratingValidator: RatingValue -> Option<ErrorKeys>

    var firstName: string
    var lastName: string
    var email: string
    var confirmEmail: string
    var phone: PhoneControl
    var notification: string
    var rating: RatingValue
    var sendCatalog: bool
    var addresses: seq<Address>
    /** Declared without an initial value: `undefined` until `setMessage`
        first runs. */
    var errorMessage: Option<string>

    /** Phone's error object agrees with its rules, and the address list,
        which starts with one entry and only grows, is never empty. */
    ghost predicate Valid()
      reads this
    {
      phone.Consistent() && |addresses| >= 1
    }

    /** Phone's rules follow the current notification preference. */
    ghost predicate PhoneFollowsNotification()
      reads this
    {
      phone.rules == PhoneRulesFor(notification)
    }

    /** `ngOnInit`: the initial form. */
    constructor ()
      ensures Valid() && PhoneFollowsNotification()
      ensures firstNameRules == [Required, MinLength(3)] && lastNameRules == [Required, MaxLength(50)]
      ensures emailRules == [Required, EmailFormat] && confirmEmailRules == [Required]
      ensures emailGroupValidator == EmailMatcher && ratingValidator == RatingRange(1.0, 5.0)
      ensures firstName == "" && lastName == "" && email == "" && confirmEmail == ""
      ensures phone == PhoneControl("", {}, None)
      ensures notification == "email" && rating == Null && sendCatalog
      ensures addresses == [BuildAddress()]
      ensures errorMessage == None
    {
      firstNameRules := [Required, MinLength(3)];
      lastNameRules := [Required, MaxLength(50)];
      emailRules := [Required, EmailFormat];
      confirmEmailRules := [Required];
      emailGroupValidator := EmailMatcher;
      ratingValidator := RatingRange(1.0, 5.0);
      firstName := "";
      lastName := "";
      email := "";
      confirmEmail := "";
      phone := PhoneControl("", {}, None);
      notification := "email";
      rating := Null;
      sendCatalog := true;
      addresses := [BuildAddress()];
      errorMessage := None;
    }

    /** Appends one default address entry; earlier entries are unchanged. */
    method AddAddress()
      requires Valid()
      modifies this`addresses
      ensures Valid()
      ensures |addresses| == |old(addresses)| + 1
      ensures addresses[..|old(addresses)|] == old(addresses)
      ensures addresses[|addresses| - 1] == BuildAddress()
    {
      addresses := addresses + [BuildAddress()];
    }

    /** Patches the demonstration values. The patch's `email` key names no
        top-level control (email lives inside the email group), so it is
        ignored and the email values stay as they were. */
    method PopulateData()
      requires Valid()
      modifies this`firstName, this`lastName, this`sendCatalog
      ensures Valid()
      ensures firstName == "John" && lastName == "Azumarest" && !sendCatalog
      ensures email == old(email) && confirmEmail == old(confirmEmail)
    {
      firstName := "John";
      lastName := "Azumarest";
      sendCatalog := false;
    }

    /** Makes phone required when notifications go by text, clears its rules
        otherwise, and re-validates it. */
    method SetNotification(notifyVia: string)
      requires Valid()
      modifies this`phone
      ensures Valid()
      ensures phone == WithNotification(old(phone), notifyVia)
    {
      var rules: set<Rule>;
      if notifyVia == "text" {
        rules := {Required};
      } else {
        rules := {};
      }
      phone := phone.(rules := rules);
      phone := phone.(errors := RequiredErrors(phone.rules, phone.value));
    }

    /** The user changes the notification preference: the control's change
        notification runs `setNotification` with the new value at once, so
        phone's rules keep following the preference. */
    method ChangeNotification(notifyVia: string)
      requires Valid()
      modifies this`notification, this`phone
      ensures Valid() && PhoneFollowsNotification()
      ensures notification == notifyVia
      ensures phone == WithNotification(old(phone), notifyVia)
    {
      notification := notifyVia;
      SetNotification(notifyVia);
    }

    /** Clears the error message, then replaces it with the control's error
        text if the control was touched or changed and has errors. */
    method SetMessage(c: Control, controlName: string)
      requires Valid()
      modifies this`errorMessage
      ensures Valid()
      ensures errorMessage == Some(DisplayedMessage(c, controlName))
    {
      errorMessage := Some("");
      if (c.touched || c.Dirty()) && c.errors.Some? {
        errorMessage := Some(ErrorText(c.errors.value, controlName));
      }
    }
  }
}
