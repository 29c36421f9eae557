/**
 * The contact page (frontend/src/pages/Contact.tsx): an enquiry form whose
 * `submit` fills an error object field by field, posts the enquiry only when
 * there is no error, and empties the form once the post has returned.
 */
module Contact {
  import opened Common
  import opened Types
  import QuickCheckout

  datatype Enquiry = Enquiry(name: string, email: string, phone: string, message: string)

  const EmptyEnquiry := Enquiry("", "", "", "")

  /** Neither white space nor `@`: the class `[^\s@]`. */
  predicate EmailChar(c: char)
  {
    !IsJsSpace(c) && c != '@'
  }

  /**
   * `/^[^\s@]+@[^\s@]+\.[^\s@]+$/` matches with its `@` at `a` and its `.` at
   * `k`: the whole string is one `@` with something on both sides, no other
   * `@` and no white space anywhere, and a dot in the domain that is neither
   * its first nor its last character.
   */
  predicate StrictMatchAt(s: string, a: int, k: int)
  {
    0 < a && a + 1 < k && k + 1 < |s| && s[a] == '@' && s[k] == '.'
    && forall i :: 0 <= i < |s| && i != a ==> EmailChar(s[i])
  }

  predicate StrictEmail(s: string)
  {
    exists a, k | 0 <= a < |s| && 0 <= k < |s| :: StrictMatchAt(s, a, k)
  }

  /** Every address the contact form accepts is accepted by the quick-checkout form too. */
  lemma StrictImpliesLoose(s: string)
    requires StrictEmail(s)
    ensures QuickCheckout.LooseEmail(s)
  {
    var a, k :| 0 <= a < |s| && 0 <= k < |s| && StrictMatchAt(s, a, k);
    assert EmailChar(s[a - 1]) && EmailChar(s[k + 1]);
    assert QuickCheckout.LooseMatchAt(s, a, k);
  }

  /** The converse fails: the unanchored pattern accepts white space before the address. */
  lemma LooseNotStrict()
    ensures QuickCheckout.LooseEmail("a b@c.d") && !StrictEmail("a b@c.d")
  {
    var s := "a b@c.d";
    assert QuickCheckout.LooseMatchAt(s, 3, 5);
    assert !EmailChar(s[1]);
  }

  const NameRequired := "Name is required"
  const EmailRequired := "Email is required"
  const EmailInvalid := "Enter a valid email"
  const PhoneRequired := "Phone is required"
  const MessageRequired := "Message is required"
  const Thanks := "✅ Thank you! We will reach out shortly."

  /** Every field filled in, the email in the strict form; the phone has no format rule. */
  predicate EnquiryValid(f: Enquiry)
  {
    !Blank(f.name) && !Blank(f.email) && StrictEmail(f.email) && !Blank(f.phone) && !Blank(f.message)
  }

  /** `e` is the error object `submit` builds for `f`: one message per failing field, nothing else. */
  predicate IsEnquiryValidation(f: Enquiry, e: map<string, string>)
  {
    && e.Keys <= {"name", "email", "phone", "message"}
    && ("name" in e <==> Blank(f.name))
    && ("name" in e ==> e["name"] == NameRequired)
    && ("email" in e <==> Blank(f.email) || !StrictEmail(f.email))
    && ("email" in e ==> e["email"] == if Blank(f.email) then EmailRequired else EmailInvalid)
    && ("phone" in e <==> Blank(f.phone))
    && ("phone" in e ==> e["phone"] == PhoneRequired)
    && ("message" in e <==> Blank(f.message))
    && ("message" in e ==> e["message"] == MessageRequired)
  }

  /** The first half of `submit`: the error object, field by field. */
  method ValidateEnquiry(f: Enquiry) returns (e: map<string, string>)
    ensures IsEnquiryValidation(f, e)
    ensures e == map[] <==> EnquiryValid(f)
  {
    e := map[];
    if Blank(f.name) {
      e := e["name" := NameRequired];
    }
    if Blank(f.email) {
      e := e["email" := EmailRequired];
    } else if !StrictEmail(f.email) {
      e := e["email" := EmailInvalid];
    }
    if Blank(f.phone) {
      e := e["phone" := PhoneRequired];
    }
    if Blank(f.message) {
      e := e["message" := MessageRequired];
    }
    if EnquiryValid(f) {
      assert e.Keys == {};
    }
  }

  /** The page's state: the form `f`, the error object `err` and the `success` banner. */
  class ContactForm {
    var f: Enquiry
    var err: map<string, string>
    var success: string

    constructor ()
      ensures f == EmptyEnquiry && err == map[] && success == ""
    {
      f, err, success := EmptyEnquiry, map[], "";
    }

    /** Typing into a field. */
    method Edit(g: Enquiry)
      modifies this
      ensures f == g && err == old(err) && success == old(success)
    {
      f := g;
    }

    /**
     * `submit()`. `sent` is the enquiry posted (`None`: no request);
     * `postSucceeds` is whether the awaited post returned normally.
     */
    method Submit(postSucceeds: bool) returns (sent: Option<Enquiry>)
      modifies this
      ensures sent.Some? <==> EnquiryValid(old(f))
      ensures sent.Some? ==> sent.value == old(f)
      ensures !EnquiryValid(old(f)) ==> IsEnquiryValidation(old(f), err) && err != map[] && success == "" && f == old(f)
      ensures EnquiryValid(old(f)) && postSucceeds ==> f == EmptyEnquiry && err == map[] && success == Thanks
      ensures EnquiryValid(old(f)) && !postSucceeds ==> f == old(f) && err == map[] && success == ""
    {
      var e := ValidateEnquiry(f);
      err := e;
      success := "";
      if |e| > 0 {
        return None;
      }
      sent := Some(f);
      if postSucceeds {
        f := EmptyEnquiry;
        err := map[];
        success := Thanks;
      }
    }
  }
}
