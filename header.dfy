/** The site header of src/app/features/Header/Header.tsx: the side menu
    and quote form toggles, and the `tel:` link built from the displayed
    phone number. */
module Header {

  predicate IsDigit(c: char) {
    '0' <= c <= '9'
  }

  predicate AllDigits(s: string) {
    forall i :: 0 <= i < |s| ==> IsDigit(s[i])
  }

  /** `phone.replace(/\D/g, '')`: every character that is not an ASCII
      digit removed, the digits kept in order. */
  function PhoneDigits(s: string): (r: string)
    ensures AllDigits(r)
    ensures |r| <= |s|
  {
    if s == [] then []
    else if IsDigit(s[0]) then [s[0]] + PhoneDigits(s[1..])
    else PhoneDigits(s[1..])
  }

  /** The strip keeps exactly the input's digits. */
  lemma {:induction false} PhoneDigitsMembership(s: string, c: char)
    ensures c in PhoneDigits(s) <==> c in s && IsDigit(c)
  {
    if s != [] {
      PhoneDigitsMembership(s[1..], c);
      assert s == [s[0]] + s[1..];
    }
  }

  /** The strip works piece by piece: stripping a concatenation is
      concatenating the strips, so the digits keep their order. */
  lemma {:induction false} PhoneDigitsAppend(a: string, b: string)
    ensures PhoneDigits(a + b) == PhoneDigits(a) + PhoneDigits(b)
  {
    if a == [] {
      assert a + b == b;
    } else {
      assert (a + b)[1..] == a[1..] + b;
      PhoneDigitsAppend(a[1..], b);
    }
  }

  /** A string of digits is left as it is, and so the strip is
      idempotent. */
  lemma {:induction false} PhoneDigitsOfDigits(s: string)
    requires AllDigits(s)
    ensures PhoneDigits(s) == s
  {
    if s != [] {
      assert IsDigit(s[0]);
      assert AllDigits(s[1..]) by {
        forall i | 0 <= i < |s[1..]| ensures IsDigit(s[1..][i]) {
          assert s[1..][i] == s[i + 1];
        }
      }
      PhoneDigitsOfDigits(s[1..]);
    }
  }

  lemma PhoneDigitsIdempotent(s: string)
    ensures PhoneDigits(PhoneDigits(s)) == PhoneDigits(s)
  {
    PhoneDigitsOfDigits(PhoneDigits(s));
  }

  /** The number shown when the header is given none. */
  const DefaultPhone := "+7 (978) 662 37 81"

  /** The href of the phone link. */
  function TelHref(phone: string): (r: string)
    ensures |r| >= 4 && r[..4] == "tel:" && AllDigits(r[4..])
    ensures r[4..] == PhoneDigits(phone)
  {
    "tel:" + PhoneDigits(phone)
  }

  lemma {:induction false} DefaultTelHref()
    ensures PhoneDigits(DefaultPhone) == "79786623781"
    ensures TelHref(DefaultPhone) == "tel:79786623781"
  {
    var a, b, c, d := "+7 (", "978)", " 662", " 37 81";
    DefaultPhonePieces();
    PhoneDigitsAppend(a, b);
    PhoneDigitsAppend(c, d);
    PhoneDigitsAppend(a + b, c + d);
    DigitsJoin();
  }

  lemma {:induction false} DefaultPhonePieces()
    ensures DefaultPhone == ("+7 (" + "978)") + (" 662" + " 37 81")
    ensures PhoneDigits("+7 (") == "7" && PhoneDigits("978)") == "978"
    ensures PhoneDigits(" 662") == "662" && PhoneDigits(" 37 81") == "3781"
  {
    PhoneDigitsAppend(" 37", " 81");
    assert " 37" + " 81" == " 37 81";
  }

  lemma DigitsJoin()
    ensures ("7" + "978") + ("662" + "3781") == "79786623781"
    ensures "tel:" + "79786623781" == "tel:79786623781"
  {
  }

  /** The header's two pieces of state. */
  class SiteHeader {
    const phone: string
    var isMenuOpen: bool
    var isModalOpen: bool

    constructor (phone: string)
      ensures this.phone == phone && !isMenuOpen && !isModalOpen
    {
      this.phone := phone;
      isMenuOpen := false;
      isModalOpen := false;
    }

    /** The menu button. */
    method ToggleMenu()
      modifies this
      ensures isMenuOpen == !old(isMenuOpen) && isModalOpen == old(isModalOpen)
    {
      isMenuOpen := !isMenuOpen;
    }

    /** The side menu's `onClose`. */
    method CloseMenu()
      modifies this
      ensures !isMenuOpen && isModalOpen == old(isModalOpen)
    {
      isMenuOpen := false;
    }

    /** The call-to-action button. */
    method OpenQuoteForm()
      modifies this
      ensures isModalOpen && isMenuOpen == old(isMenuOpen)
    {
      isModalOpen := true;
    }

    /** The quote form's `onClose`. */
    method CloseQuoteForm()
      modifies this
      ensures !isModalOpen && isMenuOpen == old(isMenuOpen)
    {
      isModalOpen := false;
    }
  }

  /** Toggling twice is the identity, closing is idempotent, and the two
      toggles are independent. */
  method MenuScenario()
  {
    var header := new SiteHeader(DefaultPhone);
    header.ToggleMenu();
    header.ToggleMenu();
    assert !header.isMenuOpen;
    header.OpenQuoteForm();
    header.ToggleMenu();
    header.CloseMenu();
    header.CloseMenu();
    assert !header.isMenuOpen && header.isModalOpen;
    header.CloseQuoteForm();
    assert !header.isMenuOpen && !header.isModalOpen;
    DefaultTelHref();
    assert TelHref(header.phone) == "tel:79786623781";
  }
}
