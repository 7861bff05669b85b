/** The checks of the customer's payment form (frontend/src/pages/UserPaymentForm.jsx):
    the bank account number, the uploaded transfer evidence, and the guard
    that decides whether the form is sent. Each validator answers whether
    the value passes together with the error text the form then shows
    (empty when it passes). */
module PaymentForm {
  import opened Common

  /** A validator's answer: whether the value passes, and the error text. */
  datatype Check = Check(ok: bool, message: string)

  predicate IsDigit(c: char) {
    '0' <= c <= '9'
  }

  predicate AllDigits(s: string) {
    forall i :: 0 <= i < |s| ==> IsDigit(s[i])
  }

  /** Whether the whole of `s` matches `\d{lo,hi}`, read one character at a
      time: each digit uses up one of the at most `hi` repetitions, and the
      text may end once `lo` digits have been read. */
  function MatchesDigitRun(s: string, lo: nat, hi: nat): bool
    decreases |s|
  {
    if |s| == 0 then lo == 0
    else IsDigit(s[0]) && hi > 0 && MatchesDigitRun(s[1..], if lo > 0 then lo - 1 else 0, hi - 1)
  }

  /** The pattern matches exactly the texts of `lo` to `hi` digits. */
  lemma {:induction false} DigitRunIff(s: string, lo: nat, hi: nat)
    ensures MatchesDigitRun(s, lo, hi) <==> AllDigits(s) && lo <= |s| <= hi
  {
    if |s| > 0 && hi > 0 {
      DigitRunIff(s[1..], if lo > 0 then lo - 1 else 0, hi - 1);
      assert forall i :: 1 <= i < |s| ==> s[i] == s[1..][i - 1];
      if AllDigits(s) {
        assert AllDigits(s[1..]) by {
          forall i | 0 <= i < |s[1..]| ensures IsDigit(s[1..][i]) {
            assert s[1..][i] == s[i + 1];
          }
        }
      }
    }
  }

  const AccountRequired: string := "Account number is required"
  const AccountMalformed: string := "Account number must be 8-17 digits"

  /** validateAccountNumber: required, then `^\d{8,17}$`. */
  function ValidateAccountNumber(number: string): (v: Check)
    ensures v.ok <==> v.message == ""
    ensures number == "" ==> v == Check(false, AccountRequired)
  {
    if number == "" then Check(false, AccountRequired)
    else if !MatchesDigitRun(number, 8, 17) then Check(false, AccountMalformed)
    else Check(true, "")
  }

  /** An account number passes exactly when it is 8 to 17 digits long and
      made of digits only; any other non-empty text gets the format message. */
  lemma AccountNumberIff(number: string)
    ensures ValidateAccountNumber(number).ok <==> AllDigits(number) && 8 <= |number| <= 17
    ensures number != "" && !ValidateAccountNumber(number).ok ==> ValidateAccountNumber(number).message == AccountMalformed
  {
    DigitRunIff(number, 8, 17);
  }

  /** What the form knows of a chosen file. */
  datatype EvidenceFile = EvidenceFile(size: int, mimeType: string)

  /** 5 MiB; a file of exactly this size passes. */
  const MaxEvidenceBytes: int := 5 * 1024 * 1024

  const AcceptedTypes: seq<string> := ["image/jpeg", "image/png", "application/pdf"]

  const EvidenceRequired: string := "Evidence file is required"
  const EvidenceTooLarge: string := "File size must be less than 5MB"
  const EvidenceWrongType: string := "Only JPEG, PNG, and PDF files are allowed"

  /** validateEvidence: required, then the size, then the type. */
  function ValidateEvidence(file: Option<EvidenceFile>): (v: Check)
    ensures v.ok <==> v.message == ""
    ensures v.ok <==> file.Some? && file.value.size <= MaxEvidenceBytes && file.value.mimeType in AcceptedTypes
    ensures file.Some? && file.value.size > MaxEvidenceBytes ==> v.message == EvidenceTooLarge
  {
    if file.None? then Check(false, EvidenceRequired)
    else if file.value.size > MaxEvidenceBytes then Check(false, EvidenceTooLarge)
    else if file.value.mimeType !in AcceptedTypes then Check(false, EvidenceWrongType)
    else Check(true, "")
  }

  /** What handleSubmit's guard decides, and the two error texts it leaves
      on the form. */
  datatype SubmitDecision = SubmitDecision(proceed: bool, accountError: string, evidenceError: string)

  /** handleSubmit's guard: both validators always run (each sets its own
      error text), and the form is sent only when both pass and the checkout
      identifier and a non-zero total came with the page. */
  function SubmitGuard(accountNumber: string, evidence: Option<EvidenceFile>, checkoutId: Option<Id>, total: Option<int>): (d: SubmitDecision)
    ensures d.accountError == ValidateAccountNumber(accountNumber).message
    ensures d.evidenceError == ValidateEvidence(evidence).message
    ensures d.proceed <==>
      && AllDigits(accountNumber) && 8 <= |accountNumber| <= 17
      && evidence.Some? && evidence.value.size <= MaxEvidenceBytes && evidence.value.mimeType in AcceptedTypes
      && checkoutId.Some? && total.Some? && total.value != 0
  {
    var account := ValidateAccountNumber(accountNumber);
    var proof := ValidateEvidence(evidence);
    AccountNumberIff(accountNumber);
    var proceed := !(!account.ok || !proof.ok || checkoutId.None? || total.None? || total.value == 0);
    SubmitDecision(proceed, account.message, proof.message)
  }
}
