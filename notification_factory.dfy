/**
 * `NotificationFactory.createNotification(type)`: upper-case the key, then pick one of three
 * notification kinds by exact comparison with "EMAIL", "SMS" or "WHATS APP"; any other key throws
 * an IllegalArgumentException. The factory has no fields, so it is a function of the key.
 */
module NotificationFactory {
  import opened Outcomes

  /** The products: EmailNotification, SMSNotifications and WhatsAppNotification. */
  datatype Notification = Email | Sms | WhatsApp

  /** The exception thrown for an unknown key, with its message. */
  datatype Error = IllegalArgumentException(message: string)

  const UnknownTypePrefix := "Unknown notification type "

  /** The upper-case key that selects each product. */
  function KeyOf(n: Notification): string
  {
    match n
    case Email => "EMAIL"
    case Sms => "SMS"
    case WhatsApp => "WHATS APP"
  }

  predicate IsAsciiLower(c: char)
  {
    'a' <= c <= 'z'
  }

  /** No character of `s` is a lower-case ASCII letter. */
  predicate IsUpperCased(s: string)
  {
    forall i :: 0 <= i < |s| ==> !IsAsciiLower(s[i])
  }

  function UpperChar(c: char): char
  {
    if IsAsciiLower(c) then (c as int - 32) as char else c
  }

  /** `toUpperCase()` restricted to ASCII: each lower-case letter becomes its capital, all else is kept. */
  function ToUpper(s: string): (u: string)
    ensures |u| == |s| && IsUpperCased(u)
    ensures forall i :: 0 <= i < |s| && !IsAsciiLower(s[i]) ==> u[i] == s[i]
    ensures forall i :: 0 <= i < |s| && IsAsciiLower(s[i]) ==> 'A' <= u[i] <= 'Z' && u[i] as int + 32 == s[i] as int
  {
    if s == [] then [] else [UpperChar(s[0])] + ToUpper(s[1..])
  }

  /**
   * `s` spells `key` in some mix of letter cases: every position holds the key's character or, where
   * that is a capital letter, its lower-case form.
   */
  predicate SameIgnoringCase(s: string, key: string)
  {
    && |s| == |key|
    && forall i :: 0 <= i < |s| ==>
         s[i] == key[i] || ('A' <= key[i] <= 'Z' && s[i] as int == key[i] as int + 32)
  }

  function CreateNotification(requested: string): (r: Result<Notification, Error>)
    ensures forall n :: r == Success(n) <==> ToUpper(requested) == KeyOf(n)
    ensures r.Failure? ==> r.error == IllegalArgumentException(UnknownTypePrefix + requested)
  {
    var key := ToUpper(requested);
    if key == "EMAIL" then Success(Email)
    else if key == "SMS" then Success(Sms)
    else if key == "WHATS APP" then Success(WhatsApp)
    else Failure(IllegalArgumentException(UnknownTypePrefix + requested))
  }

  /** Upper-casing an upper-cased string changes nothing. */
  lemma ToUpperFixesUpperCased(s: string)
    requires IsUpperCased(s)
    ensures ToUpper(s) == s
  {
  }

  /** Upper-casing is idempotent. */
  lemma ToUpperIdempotent(s: string)
    ensures ToUpper(ToUpper(s)) == ToUpper(s)
  {
    ToUpperFixesUpperCased(ToUpper(s));
  }

  /** For an upper-cased key, `s` upper-cases to the key exactly when it spells the key in any letter case. */
  lemma ToUpperMatchesKey(s: string, key: string)
    requires IsUpperCased(key)
    ensures ToUpper(s) == key <==> SameIgnoringCase(s, key)
  {
  }

  /** Each product's own key selects it: the factory and KeyOf are inverse. */
  lemma CreateOfKey(n: Notification)
    ensures CreateNotification(KeyOf(n)) == Success(n)
  {
    ToUpperFixesUpperCased(KeyOf(n));
  }

  /** "EMAIL", "SMS" and "WHATS APP" are accepted in every letter case, and nothing else selects these products. */
  lemma CreateAcceptsAnyCase(requested: string, n: Notification)
    ensures CreateNotification(requested) == Success(n) <==> SameIgnoringCase(requested, KeyOf(n))
  {
    ToUpperMatchesKey(requested, KeyOf(n));
  }

  /** The outcome depends only on the upper-cased key; a failure's message keeps the key as given. */
  lemma CreateDependsOnlyOnUpperCase(requested: string)
    ensures CreateNotification(requested).Success? <==> CreateNotification(ToUpper(requested)).Success?
    ensures CreateNotification(requested).Success? ==> CreateNotification(requested) == CreateNotification(ToUpper(requested))
  {
    ToUpperIdempotent(requested);
  }

  /** A key with a leading or trailing space is rejected: the key is not trimmed. */
  lemma CreateRejectsPaddedKeys(requested: string)
    ensures CreateNotification(" " + requested).Failure?
    ensures CreateNotification(requested + " ").Failure?
  {
    var lead, trail := ToUpper(" " + requested), ToUpper(requested + " ");
    assert lead[0] == ' ' && trail[|trail| - 1] == ' ';
    forall n: Notification
      ensures lead != KeyOf(n) && trail != KeyOf(n)
    {
      var key := KeyOf(n);
      assert key[0] != ' ' && key[|key| - 1] != ' ';
    }
  }

  /** Keys that differ from the three in more than letter case fail, with the key quoted as given. */
  lemma CreateRejectsOtherKeys()
    ensures CreateNotification("WHATSAPP") == Failure(IllegalArgumentException("Unknown notification type WHATSAPP"))
    ensures CreateNotification("") == Failure(IllegalArgumentException("Unknown notification type "))
    ensures CreateNotification("e-mail") == Failure(IllegalArgumentException("Unknown notification type e-mail"))
  {
    assert forall n :: |KeyOf(n)| in {3, 5, 9};
    assert UnknownTypePrefix + "WHATSAPP" == "Unknown notification type WHATSAPP";
    assert UnknownTypePrefix + "" == "Unknown notification type ";
    assert UnknownTypePrefix + "e-mail" == "Unknown notification type e-mail";
  }
}
