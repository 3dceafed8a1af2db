/** The checkout page (app/checkout/page.js): it reads the draft, makes sure
    the user is signed in (login, or signup followed by a sign-in), inserts a
    pending ticket, asks the payment route for a reference and deletes the
    ticket again when that fails, and names the downloaded PDF ticket.
    Every call to the database, the identity provider or the payment route
    is an outcome given as a parameter; what the page does to the outside
    world is recorded, in order, in an effect log. */
module Checkout {
  import opened Wrappers
  import opened Text
  import opened Entities
  import CreatePayment

  datatype Names = Names(firstName: string, lastName: string)

  datatype AuthMode = Login | Signup

  /** The name and phone typed into the signup form. */
  datatype ProfileForm = ProfileForm(name: string, phone: string)

  /** The user metadata sent with a signup. */
  datatype SignUpData = SignUpData(role: string, firstName: string, lastName: string, phone: Option<string>)

  /** The row inserted into the tickets table. */
  datatype TicketInsert = TicketInsert(
    tripId: string,
    passengerId: string,
    bookedBy: string,
    seatNumber: string,
    pricePaidUsd: int,
    paymentStatus: string,
    paymentMethod: string,
    bookingSource: string,
    seatClass: string)

  /** The body posted to the payment route. */
  datatype PaymentRequest = PaymentRequest(ticketId: string, amount: int, passengerName: string, passengerEmail: string)

  /** What the page does to the outside world. */
  datatype Effect =
    | Redirect(url: string)
    | InsertTicket(row: TicketInsert)
    | CallPaymentApi(request: PaymentRequest)
    | DeleteTicket(ticketId: string)
    | Alert(message: string)
    | SignIn(email: string, password: string)
    | SignUp(email: string, password: string, form: ProfileForm)  // sends SignUpMetadata(form)
    | UpdateProfile(userId: string, form: ProfileForm)            // writes SignUpMetadata(form) but the role
    | SavePdf(fileName: string)

  /** The database's answer to the ticket insert. */
  datatype InsertOutcome = Inserted(id: string, ticketNumber: string) | InsertFailed

  /** The parsed answer of the payment route. */
  datatype PaymentReply = PaymentReply(referenceNumber: Option<string>, error: Option<string>)

  /** The payment call: a reply with its `ok` flag, or an exception thrown by
      `fetch` or by reading the body, with its message. */
  datatype PaymentOutcome = Responded(ok: bool, reply: PaymentReply) | Threw(message: string)

  /** What a successful payment call leaves for the page to show. */
  datatype Issued = Issued(reference: Option<string>, ticketNumber: string)

  datatype AttemptResult = AttemptResult(effects: seq<Effect>, issued: Option<Issued>)

  /** The identity provider's answer to a signup. */
  datatype SignUpOutcome = SignUpFailed | SignedUp(withSession: bool)

  /** The identity provider's answers during one submission of the auth
      dialog; `sessionUser` is what `getUser` returns afterwards. */
  datatype AuthOutcomes = AuthOutcomes(
    signInOk: bool,
    signUp: SignUpOutcome,
    retrySignInOk: bool,
    sessionUser: Option<User>)

  /** The effects of the auth dialog up to the payment, whether the page
      refreshed its current user, and the user it goes on to pay as. */
  datatype AuthResult = AuthResult(effects: seq<Effect>, refreshed: bool, proceedAs: Option<User>)

  const HomePath := "/"
  const TicketErrorMessage := "Ocorreu um erro ao iniciar o processo de pagamento."
  const PaymentDefaultMessage := "Falha ao criar referência de pagamento."
  const LoginFailedMessage := "Falha no login. Verifique o email e senha."
  const SignupFailedMessage := "Falha no registo. Verifique os dados e tente novamente."
  const ConfirmEmailMessage := "Conta criada. Verifique seu email para confirmar e depois faça login."
  const NoSessionMessage := "Sessão não encontrada após autenticação. Tente iniciar sessão novamente."
  const PdfRefusedMessage := "Não foi possível gerar o bilhete. Faltam detalhes."

  /** `value || fallback` for a string that may be missing. */
  function OrElse(value: Option<string>, fallback: string): (r: string)
    ensures r == fallback || (value.Some? && r == value.value && r != "")
  {
    if value.Some? && value.value != "" then value.value else fallback
  }

  // ---------------------------------------------------------------------
  // ensureNames

  /** Splits a full name at white space: the first word is the first name,
      the other words joined by single spaces the last name. */
  function EnsureNames(name: string): Names {
    var trimmed := Trim(name);
    if trimmed == "" then Names("", "")
    else
      var parts := SplitSpaces(trimmed);
      if |parts| == 1 then Names(parts[0], "")
      else Names(parts[0], Join(parts[1..], " "))
  }

  /** The first name is a single word, empty exactly when the name is all
      white space, and then so is the last name; the last name has no white
      space at its ends. */
  lemma EnsureNamesShape(name: string)
    ensures var r := EnsureNames(name);
      && NoSpace(r.firstName)
      && IsTrimmed(r.lastName)
      && (r.firstName == "" <==> AllSpace(name))
      && (r.firstName == "" ==> r.lastName == "")
  {
    if AllSpace(name) {
      assert Trim(name) == "";
    } else {
      EnsureNamesOfText(Trim(name));
    }
  }

  /** A name with some text in it gives a one-word first name and a last
      name with no white space at its ends. */
  lemma EnsureNamesOfText(trimmed: string)
    requires trimmed != "" && IsTrimmed(trimmed)
    ensures var parts := SplitSpaces(trimmed);
      && IsWord(parts[0])
      && (|parts| > 1 ==> IsTrimmed(Join(parts[1..], " ")))
  {
    SplitTrimmedWords(trimmed);
    var parts := SplitSpaces(trimmed);
    if |parts| > 1 {
      var rest := parts[1..];
      assert forall i :: 0 <= i < |rest| ==> IsWord(rest[i]) by {
        forall i | 0 <= i < |rest| ensures IsWord(rest[i]) {
          assert rest[i] == parts[i + 1];
        }
      }
      JoinWordsEnds(rest);
    }
  }

  /** A non-empty string with no white space at its ends splits into words. */
  lemma {:induction false} SplitTrimmedWords(t: string)
    requires t != [] && IsTrimmed(t)
    ensures forall i :: 0 <= i < |SplitSpaces(t)| ==> IsWord(SplitSpaces(t)[i])
    decreases |t|
  {
    var w := WordLen(t);
    if w < |t| {
      var rest := t[w..];
      var k := SpaceLen(rest);
      assert rest[|rest| - 1] == t[|t| - 1];
      var next := rest[k..];
      assert next != [] && next[|next| - 1] == t[|t| - 1];
      SplitTrimmedWords(next);
      assert SplitSpaces(t) == [t[..w]] + SplitSpaces(next);
    }
  }

  /** A name made of words separated by single spaces splits back into its
      first word and the rest. */
  lemma EnsureNamesOfWords(words: seq<string>)
    requires |words| >= 1
    requires forall i :: 0 <= i < |words| ==> IsWord(words[i])
    ensures EnsureNames(Join(words, " ")) == Names(words[0], Join(words[1..], " "))
  {
    var j := Join(words, " ");
    JoinWordsEnds(words);
    TrimOfTrimmed(j);
    SplitJoinSpaces(words);
    assert Trim(j) == j && j != "";
    assert SplitSpaces(j) == words;
    if |words| == 1 {
      assert Join(words[1..], " ") == "";
    }
  }

  /** A name written as words with any runs of white space between them and
      any white space around them gives the first word as first name and
      the other words, joined by single spaces, as last name. */
  lemma EnsureNamesOfRuns(lead: string, words: seq<string>, runs: seq<string>, trail: string)
    requires |words| == |runs| + 1
    requires forall i :: 0 <= i < |words| ==> IsWord(words[i])
    requires forall i :: 0 <= i < |runs| ==> runs[i] != [] && AllSpace(runs[i])
    requires AllSpace(lead) && AllSpace(trail)
    ensures EnsureNames(lead + JoinRuns(words, runs) + trail) == Names(words[0], Join(words[1..], " "))
  {
    var m := JoinRuns(words, runs);
    JoinRunsEnds(words, runs);
    TrimPadded(lead, m, trail);
    SplitJoinRuns(words, runs);
    if |words| == 1 {
      assert Join(words[1..], " ") == "";
    }
  }

  /** "  Maria \t Silva  " gives first name "Maria" and last name "Silva". */
  lemma EnsureNamesSpacedExample()
    ensures EnsureNames("  Maria \t Silva  ") == Names("Maria", "Silva")
  {
    var words := ["Maria", "Silva"];
    var runs := [" \t "];
    assert IsWord(words[0]) && IsWord(words[1]);
    assert AllSpace(runs[0]) && AllSpace("  ");
    assert JoinRuns(words, runs) == "Maria \t Silva";
    assert "  " + JoinRuns(words, runs) + "  " == "  Maria \t Silva  ";
    EnsureNamesOfRuns("  ", words, runs, "  ");
  }

  /** Signing up as "Maria Silva" gives first name "Maria" and last name "Silva". */
  lemma EnsureNamesExample()
    ensures EnsureNames("Maria Silva") == Names("Maria", "Silva")
  {
    var words := ["Maria", "Silva"];
    assert IsWord(words[0]) && IsWord(words[1]);
    assert Join(words, " ") == "Maria Silva";
    EnsureNamesOfWords(words);
  }

  // ---------------------------------------------------------------------
  // Ticket insert and payment call

  /** The ticket row inserted for a draft: all seats in one row, joined with
      commas, priced at the draft's total, pending payment by reference,
      booked online, in the trip's seat class or "economy". */
  function InsertPayload(draft: Draft, passengerId: string): (row: TicketInsert)
    ensures row.tripId == draft.tripDetails.id
    ensures row.passengerId == passengerId && row.bookedBy == passengerId
    ensures row.pricePaidUsd == draft.totalPrice
    ensures row.paymentStatus == "pending" && row.paymentMethod == "referencia"
    ensures row.bookingSource == "online"
    ensures row.seatClass == OrElse(draft.tripDetails.seatClass, "economy")
  {
    TicketInsert(
      draft.tripDetails.id, passengerId, passengerId, JoinSeats(draft.selectedSeats),
      draft.totalPrice, "pending", "referencia", "online",
      OrElse(draft.tripDetails.seatClass, "economy"))
  }

  /** The seats stored in the ticket's `seat_number` read back as the
      draft's seats. */
  lemma InsertedSeatsReadBack(draft: Draft, passengerId: string)
    requires |draft.selectedSeats| >= 1
    ensures ParseSeatList(InsertPayload(draft, passengerId).seatNumber) == Some(draft.selectedSeats)
  {
    SeatListRoundTrip(draft.selectedSeats);
  }

  /** The body posted to the payment route for a new ticket. */
  function PaymentRequestFor(ticketId: string, draft: Draft, user: User): PaymentRequest {
    PaymentRequest(ticketId, draft.totalPrice, OrElse(user.fullName, "N/A"), user.email)
  }

  /** The payment request as the JSON body the payment route receives. */
  function RequestBody(request: PaymentRequest): CreatePayment.Body {
    CreatePayment.JsonObject(map[
      "ticket_id" := CreatePayment.Str(request.ticketId),
      "amount" := CreatePayment.Num(request.amount),
      "passenger_name" := CreatePayment.Str(request.passengerName),
      "passenger_email" := CreatePayment.Str(request.passengerEmail)])
  }

  /** The checkout's request passes the route's validation exactly when the
      ticket id is not empty and the total is positive; the route then
      forwards all four fields unchanged. */
  lemma CheckoutRequestValidation(ticketId: string, draft: Draft, user: User, upstream: CreatePayment.Upstream)
    ensures var h := CreatePayment.Post(RequestBody(PaymentRequestFor(ticketId, draft, user)), upstream);
      && (h.forwarded.Some? <==> ticketId != "" && draft.totalPrice > 0)
      && (h.forwarded.Some? ==> h.forwarded.value == RequestBody(PaymentRequestFor(ticketId, draft, user)).fields)
      && (h.forwarded.None? ==> h.response.status == 400)
  {
    var body := RequestBody(PaymentRequestFor(ticketId, draft, user));
    var f := body.fields;
    assert CreatePayment.Field(f, "ticket_id") == CreatePayment.Str(ticketId);
    assert CreatePayment.Field(f, "amount") == CreatePayment.Num(draft.totalPrice);
    var out := CreatePayment.Forwarded(f);
    assert out.Keys == f.Keys;
  }

  /** The message shown when the payment call fails: the route's error for
      a reply that is not ok, the exception's message otherwise. */
  function FailureMessage(payment: PaymentOutcome): string {
    match payment
    case Responded(_, reply) => OrElse(reply.error, PaymentDefaultMessage)
    case Threw(message) => message
  }

  /** One payment attempt (proceedWithPayment with a draft): insert the
      ticket; when that worked, call the payment route, and undo the insert
      when the call failed. */
  function Attempt(draft: Draft, user: User, insert: InsertOutcome, payment: PaymentOutcome): AttemptResult {
    var row := InsertPayload(draft, user.id);
    match insert
    case InsertFailed => AttemptResult([InsertTicket(row), Alert(TicketErrorMessage)], None)
    case Inserted(id, ticketNumber) =>
      var call := [InsertTicket(row), CallPaymentApi(PaymentRequestFor(id, draft, user))];
      if payment.Responded? && payment.ok then
        AttemptResult(call, Some(Issued(payment.reply.referenceNumber, ticketNumber)))
      else
        AttemptResult(call + [Alert(FailureMessage(payment)), DeleteTicket(id)], None)
  }

  /** The insert comes first; the payment route is called exactly when the
      insert succeeded, right after it; a reference is issued exactly when
      the call succeeded; the ticket is deleted, after the alert, exactly
      when it was created and no reference was issued. */
  lemma AttemptOrder(draft: Draft, user: User, insert: InsertOutcome, payment: PaymentOutcome)
    ensures var r := Attempt(draft, user, insert, payment);
      && |r.effects| >= 1 && r.effects[0] == InsertTicket(InsertPayload(draft, user.id))
      && (insert.InsertFailed? ==>
            r.effects == [InsertTicket(InsertPayload(draft, user.id)), Alert(TicketErrorMessage)])
      && ((exists i :: 0 <= i < |r.effects| && r.effects[i].CallPaymentApi?) <==> insert.Inserted?)
      && (insert.Inserted? ==> r.effects[1] == CallPaymentApi(PaymentRequestFor(insert.id, draft, user)))
      && (r.issued.Some? <==> insert.Inserted? && payment.Responded? && payment.ok)
      && (r.issued.Some? ==> r.issued.value == Issued(payment.reply.referenceNumber, insert.ticketNumber))
      && ((exists i :: 0 <= i < |r.effects| && r.effects[i].DeleteTicket?) <==>
            insert.Inserted? && r.issued.None?)
      && (insert.Inserted? && r.issued.None? ==>
            r.effects[|r.effects| - 1] == DeleteTicket(insert.id)
            && r.effects[|r.effects| - 2] == Alert(FailureMessage(payment)))
  {
    var r := Attempt(draft, user, insert, payment);
    if insert.Inserted? {
      assert r.effects[1].CallPaymentApi?;
      if r.issued.None? {
        assert r.effects[3].DeleteTicket?;
      }
    }
  }

  // ---------------------------------------------------------------------
  // Auth dialog

  /** `authPhone || null` */
  function PhoneOrNull(phone: string): Option<string> {
    if phone == "" then None else Some(phone)
  }

  /** The metadata a signup sends: the passenger role, the name split by
      EnsureNames, and `authPhone || null`. The profile update after a
      signup writes the same fields but the role. */
  function SignUpMetadata(form: ProfileForm): SignUpData {
    var names := EnsureNames(form.name);
    SignUpData("passenger", names.firstName, names.lastName, PhoneOrNull(form.phone))
  }

  /** A signup as "Maria Silva" without a phone sends first name "Maria",
      last name "Silva" and a null phone number. */
  lemma SignUpMetadataExample()
    ensures SignUpMetadata(ProfileForm("Maria Silva", "")) == SignUpData("passenger", "Maria", "Silva", None)
  {
    EnsureNamesExample();
  }

  /** Whether the identity provider let the user in: a successful login, or
      a signup that came with a session or was followed by a successful
      sign-in. */
  predicate SignedInAfter(mode: AuthMode, auth: AuthOutcomes) {
    match mode
    case Login => auth.signInOk
    case Signup => auth.signUp.SignedUp? && (auth.signUp.withSession || auth.retrySignInOk)
  }

  /** The first request of the auth dialog: a sign-in, or a signup with
      the form's name and phone. */
  function FirstRequest(mode: AuthMode, email: string, password: string, name: string, phone: string): Effect {
    match mode
    case Login => SignIn(email, password)
    case Signup =>
      SignUp(email, password, ProfileForm(name, phone))
  }

  /** The requests made to the identity provider, ending with the alert
      when they did not leave the user signed in: a signup without a
      session is followed by one sign-in attempt. */
  function SignInSteps(mode: AuthMode, email: string, password: string, name: string, phone: string,
                       auth: AuthOutcomes): (r: seq<Effect>)
    ensures |r| >= 1 && r[0] == FirstRequest(mode, email, password, name, phone)
    ensures !SignedInAfter(mode, auth) <==> r[|r| - 1].Alert?
    ensures mode == Login && !auth.signInOk ==> r == [SignIn(email, password), Alert(LoginFailedMessage)]
    ensures mode == Signup && auth.signUp == SignedUp(false) ==> |r| >= 2 && r[1] == SignIn(email, password)
  {
    var first := FirstRequest(mode, email, password, name, phone);
    match mode
    case Login => if auth.signInOk then [first] else [first, Alert(LoginFailedMessage)]
    case Signup =>
      match auth.signUp
      case SignUpFailed => [first, Alert(SignupFailedMessage)]
      case SignedUp(withSession) =>
        if withSession then [first]
        else if auth.retrySignInOk then [first, SignIn(email, password)]
        else [first, SignIn(email, password), Alert(ConfirmEmailMessage)]
  }

  /** handleAuthSubmit up to the payment: the identity provider's steps; on
      success the profile update after a signup, and the user the payment
      proceeds as, or the alert when no session is found. */
  function AuthFlow(mode: AuthMode, email: string, password: string, name: string, phone: string,
                    auth: AuthOutcomes): (r: AuthResult)
    ensures r.refreshed == SignedInAfter(mode, auth)
    ensures r.proceedAs == if SignedInAfter(mode, auth) then auth.sessionUser else None
  {
    var steps := SignInSteps(mode, email, password, name, phone, auth);
    if !SignedInAfter(mode, auth) then AuthResult(steps, false, None)
    else
      var profile :=
        if mode == Signup && auth.sessionUser.Some? then
          [UpdateProfile(auth.sessionUser.value.id, ProfileForm(name, phone))]
        else [];
      match auth.sessionUser
      case None => AuthResult(steps + profile + [Alert(NoSessionMessage)], true, None)
      case Some(u) => AuthResult(steps + profile, true, Some(u))
  }

  /** The identity provider's steps come first and are all there is when
      they failed; the current user is refreshed exactly when the user got
      signed in, and the payment proceeds exactly when a session user is
      then found, as that user; the submission ends with an alert exactly
      when it does not proceed; a signup updates the session user's profile
      with the form's name and phone. */
  lemma AuthFlowOutcome(mode: AuthMode, email: string, password: string, name: string, phone: string,
                        auth: AuthOutcomes)
    ensures var r := AuthFlow(mode, email, password, name, phone, auth);
      var steps := SignInSteps(mode, email, password, name, phone, auth);
      && |steps| <= |r.effects| && r.effects[..|steps|] == steps
      && (!SignedInAfter(mode, auth) ==> r.effects == steps)
      && (r.refreshed <==> SignedInAfter(mode, auth))
      && (r.proceedAs.Some? <==> SignedInAfter(mode, auth) && auth.sessionUser.Some?)
      && (r.proceedAs.Some? ==> r.proceedAs == auth.sessionUser)
      && (r.proceedAs.None? <==> r.effects[|r.effects| - 1].Alert?)
      && (SignedInAfter(mode, auth) && mode == Signup && auth.sessionUser.Some? ==>
            UpdateProfile(auth.sessionUser.value.id, ProfileForm(name, phone)) in r.effects)
  {
    var r := AuthFlow(mode, email, password, name, phone, auth);
    var steps := SignInSteps(mode, email, password, name, phone, auth);
    if SignedInAfter(mode, auth) {
      var profile :=
        if mode == Signup && auth.sessionUser.Some? then
          [UpdateProfile(auth.sessionUser.value.id, ProfileForm(name, phone))]
        else [];
      if auth.sessionUser.Some? {
        assert r.effects == steps + profile;
        assert (steps + profile)[|steps| + |profile| - 1] == if profile == [] then steps[|steps| - 1] else profile[0];
      }
    }
  }

  // ---------------------------------------------------------------------
  // PDF file name

  /** The local clock as `Date` reports it; `monthIndex` counts from 0. */
  datatype LocalTime = LocalTime(year: nat, monthIndex: nat, day: nat, hours: nat, minutes: nat)

  predicate ValidTime(t: LocalTime) {
    && 1000 <= t.year <= 9999 && t.monthIndex < 12 && 1 <= t.day <= 31
    && t.hours < 24 && t.minutes < 60
  }

  /** `s.replace(/\s/g, '_')`: every white-space character becomes '_'. */
  function Underscored(s: string): (r: string)
    ensures |r| == |s| && NoSpace(r)
    ensures forall i :: 0 <= i < |s| && !IsSpace(s[i]) ==> r[i] == s[i]
  {
    seq(|s|, i requires 0 <= i < |s| => if IsSpace(s[i]) then '_' else s[i])
  }

  /** YYYYMMDDHHmm of the local clock, month counted from 1. */
  function Stamp(t: LocalTime): string {
    NatToString(t.year) + Pad2(t.monthIndex + 1) + Pad2(t.day) + Pad2(t.hours) + Pad2(t.minutes)
  }

  /** `nawabus-{ticket number}-{YYYYMMDD}{HHmm}.pdf` */
  function PdfFileName(ticketNumber: string, now: LocalTime): string {
    "nawabus-" + Underscored(ticketNumber) + "-" + Stamp(now) + ".pdf"
  }

  lemma FourDigitYear(y: nat)
    requires 1000 <= y <= 9999
    ensures |NatToString(y)| == 4 && DigitsValue(NatToString(y)) == y
  {
    DigitsValueOfNatToString(y);
    assert |NatToString(y / 1000)| == 1;
    assert |NatToString(y / 100)| == 2;
    assert |NatToString(y / 10)| == 3;
  }

  /** The stamp is twelve digits that read back as the year, the month
      counted from 1, the day, the hour and the minute. */
  lemma StampParts(now: LocalTime)
    requires ValidTime(now)
    ensures var s := Stamp(now);
      && |s| == 12 && AllDigits(s)
      && DigitsValue(s[..4]) == now.year
      && DigitsValue(s[4..6]) == now.monthIndex + 1
      && DigitsValue(s[6..8]) == now.day
      && DigitsValue(s[8..10]) == now.hours
      && DigitsValue(s[10..]) == now.minutes
  {
    FourDigitYear(now.year);
    Pad2Value(now.monthIndex + 1);
    Pad2Value(now.day);
    Pad2Value(now.hours);
    Pad2Value(now.minutes);
    var y, mo, d := NatToString(now.year), Pad2(now.monthIndex + 1), Pad2(now.day);
    var h, mi := Pad2(now.hours), Pad2(now.minutes);
    var s := Stamp(now);
    assert s == y + mo + d + h + mi;
    assert s[..4] == y;
    assert s[4..6] == mo;
    assert s[6..8] == d;
    assert s[8..10] == h;
    assert s[10..] == mi;
  }

  /** The file name is the prefix, the ticket number with its white space
      replaced, a dash, the stamp and the extension. */
  lemma PdfFileNameParts(ticketNumber: string, now: LocalTime)
    requires ValidTime(now)
    ensures var f := PdfFileName(ticketNumber, now);
      var n := |ticketNumber|;
      && |f| == n + 25
      && f[..8] == "nawabus-"
      && f[8..8 + n] == Underscored(ticketNumber)
      && f[8 + n] == '-'
      && f[n + 9..n + 21] == Stamp(now)
      && f[n + 21..] == ".pdf"
  {
    StampParts(now);
    var n := |ticketNumber|;
    var f := PdfFileName(ticketNumber, now);
    var u := Underscored(ticketNumber);
    var s := Stamp(now);
    assert f == "nawabus-" + u + "-" + s + ".pdf";
  }

  /** handleDownloadPdf's guard: refused without a draft, a ticket number or
      a signed-in user; otherwise the ticket is saved under its file name. */
  function DownloadName(draft: Option<Draft>, ticketNumber: Option<string>, user: Option<User>,
                        now: LocalTime): (r: Option<string>)
    ensures r.None? <==> draft.None? || ticketNumber.None? || ticketNumber.value == "" || user.None?
    ensures r.Some? ==> r.value == PdfFileName(ticketNumber.value, now)
  {
    if draft.None? || ticketNumber.None? || ticketNumber.value == "" || user.None? then None
    else Some(PdfFileName(ticketNumber.value, now))
  }

  // ---------------------------------------------------------------------
  // The page

  /** The effects of proceedWithPayment for a draft and a user, when both are there. */
  function PaymentEffects(draft: Option<Draft>, user: Option<User>, insert: InsertOutcome, payment: PaymentOutcome): seq<Effect> {
    if draft.Some? && user.Some? then Attempt(draft.value, user.value, insert, payment).effects else []
  }

  /** The reference and ticket number the page shows after proceedWithPayment:
      those issued, or the ones shown before. */
  function Shown(reference: Option<string>, ticketNumber: Option<string>, draft: Option<Draft>, user: Option<User>,
                 insert: InsertOutcome, payment: PaymentOutcome): (Option<string>, Option<string>) {
    if draft.Some? && user.Some? then
      match Attempt(draft.value, user.value, insert, payment).issued
      case Some(issued) => (issued.reference, Some(issued.ticketNumber))
      case None => (reference, ticketNumber)
    else (reference, ticketNumber)
  }

  class CheckoutPage {
    const bookingDetails: Option<Draft>
    var isLoading: bool
    var reference: Option<string>
    var ticketNumber: Option<string>
    var showAuthDialog: bool
    var authMode: AuthMode
    var authEmail: string
    var authPassword: string
    var authName: string
    var authPhone: string
    var authSubmitting: bool
    var currentUser: Option<User>
    var effects: seq<Effect>

    /** Mounting: the stored draft is loaded, or the page goes home when
        there is none; the current user is whoever the session holds. */
    constructor (stored: Option<Draft>, sessionUser: Option<User>)
      ensures bookingDetails == stored && currentUser == sessionUser
      ensures effects == if stored.None? then [Redirect(HomePath)] else []
      ensures !isLoading && !showAuthDialog && !authSubmitting && authMode == Login
      ensures reference.None? && ticketNumber.None?
    {
      bookingDetails := stored;
      isLoading := false;
      reference := None;
      ticketNumber := None;
      showAuthDialog := false;
      authMode := Login;
      authEmail, authPassword, authName, authPhone := "", "", "", "";
      authSubmitting := false;
      currentUser := sessionUser;
      effects := if stored.None? then [Redirect(HomePath)] else [];
    }

    /** The link under the auth form switches between login and signup. */
    method ToggleAuthMode()
      modifies this`authMode
      ensures authMode == if old(authMode) == Login then Signup else Login
    {
      authMode := if authMode == Login then Signup else Login;
    }

    /** Typing into the auth form. */
    method EnterCredentials(email: string, password: string, name: string, phone: string)
      modifies this`authEmail, this`authPassword, this`authName, this`authPhone
      ensures authEmail == email && authPassword == password && authName == name && authPhone == phone
    {
      authEmail, authPassword, authName, authPhone := email, password, name, phone;
    }

    /** proceedWithPayment: nothing without a draft; otherwise insert the
        ticket, call the payment route, and record the reference or undo
        the insert. */
    method ProceedWithPayment(user: User, insert: InsertOutcome, payment: PaymentOutcome)
      modifies this`effects, this`reference, this`ticketNumber
      ensures effects == old(effects) + PaymentEffects(bookingDetails, Some(user), insert, payment)
      ensures (reference, ticketNumber) == Shown(old(reference), old(ticketNumber), bookingDetails, Some(user), insert, payment)
    {
      if bookingDetails.None? {
        return;
      }
      var draft := bookingDetails.value;
      effects := effects + [InsertTicket(InsertPayload(draft, user.id))];
      if insert.InsertFailed? {
        effects := effects + [Alert(TicketErrorMessage)];
        return;
      }
      effects := effects + [CallPaymentApi(PaymentRequestFor(insert.id, draft, user))];
      if payment.Responded? && payment.ok {
        reference := payment.reply.referenceNumber;
        ticketNumber := Some(insert.ticketNumber);
      } else {
        effects := effects + [Alert(FailureMessage(payment)), DeleteTicket(insert.id)];
      }
    }

    /** handlePayment: without a signed-in user the auth dialog opens and
        nothing is inserted; otherwise one payment attempt. The loading flag
        is off again afterwards in every case. */
    method HandlePayment(sessionUser: Option<User>, insert: InsertOutcome, payment: PaymentOutcome)
      modifies this`isLoading, this`showAuthDialog, this`effects, this`reference, this`ticketNumber
      ensures !isLoading
      ensures showAuthDialog == (old(showAuthDialog) || (bookingDetails.Some? && sessionUser.None?))
      ensures effects == old(effects) + PaymentEffects(bookingDetails, sessionUser, insert, payment)
      ensures (reference, ticketNumber) == Shown(old(reference), old(ticketNumber), bookingDetails, sessionUser, insert, payment)
    {
      isLoading := true;
      if bookingDetails.None? {
        isLoading := false;
        return;
      }
      if sessionUser.None? {
        showAuthDialog := true;
        isLoading := false;
        return;
      }
      ProceedWithPayment(sessionUser.value, insert, payment);
      isLoading := false;
    }

    /** handleAuthSubmit: log in or sign up as AuthFlow describes; when
        that leaves a session, refresh the current user, close the dialog
        and make one payment attempt as that user. */
    method HandleAuthSubmit(auth: AuthOutcomes, insert: InsertOutcome, payment: PaymentOutcome)
      modifies this`authSubmitting, this`currentUser, this`showAuthDialog, this`isLoading,
        this`effects, this`reference, this`ticketNumber
      ensures !authSubmitting
      ensures var flow := AuthFlow(authMode, authEmail, authPassword, authName, authPhone, auth);
        && currentUser == (if flow.refreshed then auth.sessionUser else old(currentUser))
        && effects == old(effects) + flow.effects + PaymentEffects(bookingDetails, flow.proceedAs, insert, payment)
        && (reference, ticketNumber) == Shown(old(reference), old(ticketNumber), bookingDetails, flow.proceedAs, insert, payment)
        && (flow.proceedAs.None? ==> showAuthDialog == old(showAuthDialog) && isLoading == old(isLoading))
        && (flow.proceedAs.Some? ==> !showAuthDialog && !isLoading)
    {
      var proceedAs := Authenticate(auth);
      ProceedAfterSignIn(proceedAs, insert, payment);
    }

    /** The payment part of handleAuthSubmit: with a user to proceed as, the
        dialog closes and one payment attempt runs with loading on; the
        submission is over at the end. */
    method ProceedAfterSignIn(proceedAs: Option<User>, insert: InsertOutcome, payment: PaymentOutcome)
      modifies this`showAuthDialog, this`isLoading, this`effects, this`reference, this`ticketNumber,
        this`authSubmitting
      ensures !authSubmitting
      ensures effects == old(effects) + PaymentEffects(bookingDetails, proceedAs, insert, payment)
      ensures (reference, ticketNumber) == Shown(old(reference), old(ticketNumber), bookingDetails, proceedAs, insert, payment)
      ensures proceedAs.None? ==> showAuthDialog == old(showAuthDialog) && isLoading == old(isLoading)
      ensures proceedAs.Some? ==> !showAuthDialog && !isLoading
    {
      if proceedAs.None? {
        assert effects + PaymentEffects(bookingDetails, None, insert, payment) == effects;
        authSubmitting := false;
        return;
      }
      showAuthDialog := false;
      isLoading := true;
      ProceedWithPayment(proceedAs.value, insert, payment);
      isLoading := false;
      authSubmitting := false;
    }

    /** The sign-in part of handleAuthSubmit: the submission starts, then
        the identity provider's steps, the refreshed user, and the user to
        proceed as, if any. */
    method Authenticate(auth: AuthOutcomes) returns (proceedAs: Option<User>)
      modifies this`authSubmitting, this`currentUser, this`effects
      ensures authSubmitting
      ensures var flow := AuthFlow(authMode, authEmail, authPassword, authName, authPhone, auth);
        && currentUser == (if flow.refreshed then auth.sessionUser else old(currentUser))
        && effects == old(effects) + flow.effects
        && proceedAs == flow.proceedAs
    {
      authSubmitting := true;
      var flow := AuthFlow(authMode, authEmail, authPassword, authName, authPhone, auth);
      effects := effects + flow.effects;
      if flow.refreshed {
        currentUser := auth.sessionUser;
      }
      proceedAs := flow.proceedAs;
    }

    /** handleDownloadPdf: an alert when something is missing, otherwise the
        ticket is saved under its file name and the page goes home. */
    method HandleDownloadPdf(now: LocalTime)
      modifies this`effects
      ensures var name := DownloadName(bookingDetails, ticketNumber, currentUser, now);
        effects == old(effects) + (if name.None? then [Alert(PdfRefusedMessage)]
                                   else [SavePdf(name.value), Redirect(HomePath)])
    {
      var name := DownloadName(bookingDetails, ticketNumber, currentUser, now);
      if name.None? {
        effects := effects + [Alert(PdfRefusedMessage)];
        return;
      }
      effects := effects + [SavePdf(name.value), Redirect(HomePath)];
    }
  }
}
