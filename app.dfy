/**
 * The webhook of app.py: each inbound Telegram message is classified, in a
 * fixed order, as the administrator's `/credit` command, `/me`, `/start`, a
 * menu label, content for the chat's current mode, or anything else; the
 * classification decides how `user_access` (the ledger) and `user_state`
 * (the mode of each chat) change and which transformation runs.
 */
module App {
  import opened Wrappers
  import opened PyStrings
  import opened Ledger

  /** The value of `user_state[chat_id]`; `Unset` is Python's `None`. */
  datatype Mode = Unset | Word | SummaryPdf | SummaryWord | SummaryText | OcrPdf

  /** An attached file: its `mime_type` (the empty string when absent) and its `file_id`. */
  datatype Document = Document(mimeType: string, fileId: string)

  /** The fields of an inbound message the bot reads; `sender` is `from.id`. */
  datatype Message = Message(chat: int, sender: Option<int>, text: Option<string>, document: Option<Document>)

  /** The transformation capabilities, opaque here. */
  datatype Capability = HandlePdfToWord | HandleSummaryPdf | HandleSummaryWord | HandleSummaryText | HandleOcrPdf

  /** What the ghost trace records: a capability ran on an input, or `register_use` ran. */
  datatype Event = Invoked(cap: Capability, chat: int, input: string) | Used(user: int, source: Source)

  /** The kinds of reply the webhook sends itself (the capabilities' own messages are not among them). */
  datatype Reply =
    | NotAdmin
    | CreditFormat
    | CreditNotNumeric
    | CreditAdded(target: int, count: int)
    | Status(freeUsed: bool, paidRemaining: int)
    | MainMenu
    | ModeChosen(mode: Mode)
    | NoAccess
    | Converting
    | PdfWithoutMode
    | WordModeNeeded
    | UnsupportedFile
    | StartOver

  /** Which branch of the webhook a message takes. */
  datatype Route =
    | CreditDenied
    | CreditMalformed
    | CreditNonNumeric
    | CreditGrant(target: int, count: int)
    | ShowStatus
    | Start
    | Select(mode: Mode)
    | Run(cap: Capability, input: string)
    | PdfUnbound
    | DocxUnbound
    | Unsupported
    | Fallback
    | Silent

  /** The kinds of content a mode asks for. */
  datatype Content = PdfDocument | DocxDocument | PlainText

  const PdfMime: string := "application/pdf"
  const DocxMime: string := "application/vnd.openxmlformats-officedocument.wordprocessingml.document"

  const WordLabel: string := "📄 PDF → Word"
  const SummaryPdfLabel: string := "🧾 خلاصه PDF"
  const SummaryWordLabel: string := "📑 خلاصه Word"
  const SummaryTextLabel: string := "✍ خلاصه متن"
  const OcrPdfLabel: string := "🔤 تبدیل اسکن به متن (PDF)"

  /** `from.get("id", chat_id)`: the sender, or the chat when the message has none. */
  function UserId(msg: Message): (u: int)
    ensures msg.sender.Some? ==> u == msg.sender.value
    ensures msg.sender.None? ==> u == msg.chat
  {
    msg.sender.GetOr(msg.chat)
  }

  /** Python truthiness of `text`: present and non-empty. */
  predicate HasText(msg: Message) {
    msg.text.Some? && msg.text.value != ""
  }

  /** `user_state.get(chat_id)`. */
  function ModeOf(mode: map<int, Mode>, chat: int): (m: Mode)
    ensures chat in mode ==> m == mode[chat]
    ensures chat !in mode ==> m == Unset
  {
    if chat in mode then mode[chat] else Unset
  }

  /** The mode each menu label selects. */
  function MenuMode(t: string): (m: Option<Mode>)
    ensures m.Some? <==> t in {WordLabel, SummaryPdfLabel, SummaryWordLabel, SummaryTextLabel, OcrPdfLabel}
    ensures m.Some? ==> m.value != Unset
  {
    if t == WordLabel then Some(Word)
    else if t == SummaryPdfLabel then Some(SummaryPdf)
    else if t == SummaryWordLabel then Some(SummaryWord)
    else if t == SummaryTextLabel then Some(SummaryText)
    else if t == OcrPdfLabel then Some(OcrPdf)
    else None
  }

  /** `/start` and the menu labels are neither `/credit` nor `/me` commands, and no label is `/start`. */
  lemma CommandsDistinct(msg: Message)
    ensures msg.text == Some("/start") ==> !IsCredit(msg) && !StartsWith("/start", "/me")
    ensures msg.text.Some? && MenuMode(msg.text.value).Some? ==>
      && !IsCredit(msg) && !StartsWith(msg.text.value, "/me") && msg.text.value != "/start"
  {
    if msg.text.Some? && MenuMode(msg.text.value).Some? {
      var t := msg.text.value;
      assert t[0] != '/';
    }
    assert "/start"[..3][1] == 's' != 'm' == "/me"[1];
  }

  /** The content each mode asks for; a chat without a mode asks for none. */
  function Required(m: Mode): Option<Content> {
    match m
    case Unset => None
    case Word => Some(PdfDocument)
    case SummaryPdf => Some(PdfDocument)
    case SummaryWord => Some(DocxDocument)
    case SummaryText => Some(PlainText)
    case OcrPdf => Some(PdfDocument)
  }

  /** The capability each mode runs. */
  function CapabilityOf(m: Mode): Capability
    requires m != Unset
  {
    match m
    case Word => HandlePdfToWord
    case SummaryPdf => HandleSummaryPdf
    case SummaryWord => HandleSummaryWord
    case SummaryText => HandleSummaryText
    case OcrPdf => HandleOcrPdf
  }

  /** The message carries content of kind `c`; plain text must not look like a command. */
  predicate Supplies(msg: Message, c: Content) {
    match c
    case PdfDocument => msg.document.Some? && msg.document.value.mimeType == PdfMime
    case DocxDocument => msg.document.Some? && msg.document.value.mimeType == DocxMime
    case PlainText => HasText(msg) && !StartsWith(msg.text.value, "/")
  }

  /** The message carries what mode `m` asks for. */
  predicate Fits(m: Mode, msg: Message) {
    Required(m).Some? && Supplies(msg, Required(m).value)
  }

  /** What a capability is handed: the text itself, or the document's file id. */
  function InputOf(msg: Message, c: Content): string
    requires Supplies(msg, c)
  {
    if c == PlainText then msg.text.value else msg.document.value.fileId
  }

  /** The message is a `/credit` command. */
  predicate IsCredit(msg: Message) {
    HasText(msg) && StartsWith(msg.text.value, "/credit")
  }

  /** The message is handled before mode dispatch: `/credit`, `/me`, `/start` or a menu label. */
  predicate IsControl(msg: Message) {
    HasText(msg) &&
    (StartsWith(msg.text.value, "/credit") || StartsWith(msg.text.value, "/me")
     || msg.text.value == "/start" || MenuMode(msg.text.value).Some?)
  }

  /**
   * The `/credit USER_ID COUNT` branch: only the administrator may grant, and
   * only with exactly two arguments that both parse as integers.
   */
  function CreditRoute(msg: Message, adminId: int, parseInt: string -> Option<int>): (r: Route)
    requires IsCredit(msg)
    ensures r.CreditDenied? || r.CreditMalformed? || r.CreditNonNumeric? || r.CreditGrant?
    ensures r == CreditDenied <==> UserId(msg) != adminId
    ensures r == CreditMalformed <==> UserId(msg) == adminId && |Words(msg.text.value)| != 3
    ensures r.CreditGrant? <==>
      && UserId(msg) == adminId
      && |Words(msg.text.value)| == 3
      && parseInt(Words(msg.text.value)[1]).Some?
      && parseInt(Words(msg.text.value)[2]).Some?
    ensures r.CreditGrant? ==>
      && parseInt(Words(msg.text.value)[1]) == Some(r.target)
      && parseInt(Words(msg.text.value)[2]) == Some(r.count)
  {
    if UserId(msg) != adminId then CreditDenied
    else
      var parts := Words(msg.text.value);
      if |parts| != 3 then CreditMalformed
      else
        match (parseInt(parts[1]), parseInt(parts[2]))
        case (Some(target), Some(count)) => CreditGrant(target, count)
        case _ => CreditNonNumeric
  }

  /**
   * Mode dispatch: a capability runs exactly when the message carries the
   * content the chat's mode asks for, and it is that mode's capability;
   * otherwise the message is answered without touching any state.
   */
  function ContentRoute(msg: Message, current: Mode): (r: Route)
    ensures r.Run? <==> Fits(current, msg)
    ensures r.Run? ==> r.cap == CapabilityOf(current) && r.input == InputOf(msg, Required(current).value)
    ensures r.Run? || r.PdfUnbound? || r.DocxUnbound? || r.Unsupported? || r.Fallback? || r.Silent?
  {
    if current == SummaryText && HasText(msg) && !StartsWith(msg.text.value, "/") then
      Run(HandleSummaryText, msg.text.value)
    else if msg.document.Some? then
      var doc := msg.document.value;
      if doc.mimeType == PdfMime then
        if current == Word then Run(HandlePdfToWord, doc.fileId)
        else if current == SummaryPdf then Run(HandleSummaryPdf, doc.fileId)
        else if current == OcrPdf then Run(HandleOcrPdf, doc.fileId)
        else PdfUnbound
      else if doc.mimeType == DocxMime then
        if current == SummaryWord then Run(HandleSummaryWord, doc.fileId) else DocxUnbound
      else Unsupported
    else if HasText(msg) then Fallback
    else Silent
  }

  /**
   * The webhook's classification of a message, in its fixed order: `/credit`,
   * `/me`, `/start`, a menu label, then mode dispatch. Each command is
   * recognised exactly by its own test, and content reaches a capability
   * exactly when it is not a command and fits the current mode.
   */
  function Classify(msg: Message, adminId: int, parseInt: string -> Option<int>, current: Mode): (r: Route)
    ensures IsCredit(msg) <==> (r.CreditDenied? || r.CreditMalformed? || r.CreditNonNumeric? || r.CreditGrant?)
    ensures IsCredit(msg) ==> r == CreditRoute(msg, adminId, parseInt)
    ensures r.ShowStatus? <==> HasText(msg) && !IsCredit(msg) && StartsWith(msg.text.value, "/me")
    ensures r == Start <==> msg.text == Some("/start")
    ensures r.Select? <==> msg.text.Some? && MenuMode(msg.text.value).Some?
    ensures r.Select? ==> MenuMode(msg.text.value) == Some(r.mode)
    ensures !IsControl(msg) ==> r == ContentRoute(msg, current)
    ensures r.Run? <==> !IsControl(msg) && Fits(current, msg)
  {
    CommandsDistinct(msg);
    if IsCredit(msg) then CreditRoute(msg, adminId, parseInt)
    else if HasText(msg) && StartsWith(msg.text.value, "/me") then ShowStatus
    else if msg.text == Some("/start") then Start
    else if msg.text.Some? && MenuMode(msg.text.value).Some? then Select(MenuMode(msg.text.value).value)
    else ContentRoute(msg, current)
  }

  /**
   * The ledger after a message from `user` takes `route`: a grant applies
   * `/credit`; a run the ledger allows spends the chosen source; nothing else
   * touches the ledger.
   */
  function AccessAfter(access: map<int, Record>, route: Route, user: int): (m: map<int, Record>)
    ensures !route.CreditGrant? && !route.Run? ==> m == access
    ensures route.Run? ==> Units(Lookup(m, user)) <= Units(Lookup(access, user))
    ensures route.Run? ==> forall u :: u != user ==> Lookup(m, u) == Lookup(access, u)
  {
    match route
    case CreditGrant(target, count) => Grant(access, target, count)
    case Run(_, _) =>
      var a := CheckAccess(access, user);
      if a.allowed then access[user := Consume(Lookup(access, user), a.source)] else access
    case _ => access
  }

  /** The modes after a message in `chat` takes `route`: `/start` clears the mode, a menu label sets it. */
  function ModeAfter(mode: map<int, Mode>, route: Route, chat: int): (m: map<int, Mode>)
    ensures forall c :: c != chat ==> ModeOf(m, c) == ModeOf(mode, c)
    ensures !route.Start? && !route.Select? ==> m == mode
  {
    match route
    case Start => mode[chat := Unset]
    case Select(m) => mode[chat := m]
    case _ => mode
  }

  /** What a message adds to the trace: for an allowed run, the capability and then `register_use` with the chosen source. */
  function EventsOf(access: map<int, Record>, route: Route, chat: int, user: int): (e: seq<Event>)
    ensures e != [] <==> route.Run? && CheckAccess(access, user).allowed
    ensures e != [] ==> |e| == 2 && e[0].Invoked? && e[0].cap == route.cap && e[1] == Used(user, CheckAccess(access, user).source)
    ensures e != [] ==> e[1].source != NoSource
  {
    var a := CheckAccess(access, user);
    if route.Run? && a.allowed then [Invoked(route.cap, chat, route.input), Used(user, a.source)] else []
  }

  /** The replies the webhook itself sends for `route`. */
  function RepliesOf(access: map<int, Record>, route: Route, user: int): (r: seq<Reply>)
    ensures |r| <= 2
    ensures route.Run? ==> (r == [NoAccess] <==> !CheckAccess(access, user).allowed)
    ensures route.Run? && CheckAccess(access, user).allowed ==> (r == [Converting] <==> route.cap == HandlePdfToWord)
  {
    match route
    case CreditDenied => [NotAdmin]
    case CreditMalformed => [CreditFormat]
    case CreditNonNumeric => [CreditNotNumeric]
    case CreditGrant(target, count) => [CreditAdded(target, count)]
    case ShowStatus => [Status(Lookup(access, user).freeUsed, Lookup(access, user).paidRemaining)]
    case Start => [MainMenu]
    case Select(m) => [ModeChosen(m)]
    case Run(cap, _) =>
      if !CheckAccess(access, user).allowed then [NoAccess]
      else if cap == HandlePdfToWord then [Converting]
      else []
    case PdfUnbound => [PdfWithoutMode, MainMenu]
    case DocxUnbound => [WordModeNeeded]
    case Unsupported => [UnsupportedFile]
    case Fallback => [StartOver]
    case Silent => []
  }

  /**
   * A `/credit` that is not from the administrator, does not have exactly two
   * arguments, or has an argument that does not parse changes neither the
   * ledger nor any mode, and runs nothing.
   */
  lemma RejectedCreditChangesNothing(msg: Message, adminId: int, parseInt: string -> Option<int>,
                                     access: map<int, Record>, mode: map<int, Mode>)
    requires IsCredit(msg)
    requires || UserId(msg) != adminId
             || |Words(msg.text.value)| != 3
             || parseInt(Words(msg.text.value)[1]).None?
             || parseInt(Words(msg.text.value)[2]).None?
    ensures var route := Classify(msg, adminId, parseInt, ModeOf(mode, msg.chat));
      && AccessAfter(access, route, UserId(msg)) == access
      && ModeAfter(mode, route, msg.chat) == mode
      && EventsOf(access, route, msg.chat, UserId(msg)) == []
  {
    assert Classify(msg, adminId, parseInt, ModeOf(mode, msg.chat)) == CreditRoute(msg, adminId, parseInt);
  }

  /**
   * An accepted `/credit` applies exactly the grant to the ledger, and
   * changes no mode and runs nothing.
   */
  lemma AcceptedCreditGrants(msg: Message, adminId: int, parseInt: string -> Option<int>,
                             access: map<int, Record>, mode: map<int, Mode>)
    requires IsCredit(msg) && UserId(msg) == adminId && |Words(msg.text.value)| == 3
    requires parseInt(Words(msg.text.value)[1]).Some? && parseInt(Words(msg.text.value)[2]).Some?
    ensures var route := Classify(msg, adminId, parseInt, ModeOf(mode, msg.chat));
      && AccessAfter(access, route, UserId(msg))
         == Grant(access, parseInt(Words(msg.text.value)[1]).value, parseInt(Words(msg.text.value)[2]).value)
      && ModeAfter(mode, route, msg.chat) == mode
      && EventsOf(access, route, msg.chat, UserId(msg)) == []
  {
    var route := Classify(msg, adminId, parseInt, ModeOf(mode, msg.chat));
    assert route == CreditRoute(msg, adminId, parseInt);
    assert route.CreditGrant?;
  }

  /**
   * `/me`, `/start` and the menu labels never touch the ledger or run a
   * capability; `/start` clears the chat's mode, a label sets its mode, and
   * `/me` leaves the modes alone and reports the user's record, the defaults
   * for a user never seen.
   */
  lemma CommandsKeepLedger(msg: Message, adminId: int, parseInt: string -> Option<int>,
                           access: map<int, Record>, mode: map<int, Mode>)
    requires IsControl(msg) && !IsCredit(msg)
    ensures var route := Classify(msg, adminId, parseInt, ModeOf(mode, msg.chat));
      && AccessAfter(access, route, UserId(msg)) == access
      && EventsOf(access, route, msg.chat, UserId(msg)) == []
    ensures var route := Classify(msg, adminId, parseInt, ModeOf(mode, msg.chat));
      && (msg.text == Some("/start") ==> ModeAfter(mode, route, msg.chat) == mode[msg.chat := Unset])
      && (MenuMode(msg.text.value).Some? ==>
            ModeAfter(mode, route, msg.chat) == mode[msg.chat := MenuMode(msg.text.value).value])
      && (StartsWith(msg.text.value, "/me") ==>
            && ModeAfter(mode, route, msg.chat) == mode
            && RepliesOf(access, route, UserId(msg)) ==
                 [Status(Lookup(access, UserId(msg)).freeUsed, Lookup(access, UserId(msg)).paidRemaining)])
    ensures StartsWith(msg.text.value, "/me") && UserId(msg) !in access ==>
      RepliesOf(access, Classify(msg, adminId, parseInt, ModeOf(mode, msg.chat)), UserId(msg)) == [Status(false, 0)]
  {
    CommandsDistinct(msg);
  }

  /**
   * Mode dispatch never changes a mode. The ledger changes, and a capability
   * runs, exactly when the content fits the chat's mode and `check_access`
   * allows it; then that mode's capability runs once on the content and
   * `register_use` follows with the source `check_access` chose.
   */
  lemma DispatchSpendsOnlyOnAdmittedAttempts(msg: Message, adminId: int, parseInt: string -> Option<int>,
                                             access: map<int, Record>, mode: map<int, Mode>)
    requires !IsControl(msg)
    ensures var current := ModeOf(mode, msg.chat);
      var route := Classify(msg, adminId, parseInt, current);
      var user := UserId(msg);
      var a := CheckAccess(access, user);
      && ModeAfter(mode, route, msg.chat) == mode
      && (Fits(current, msg) && a.allowed ==>
            && EventsOf(access, route, msg.chat, user) ==
                 [Invoked(CapabilityOf(current), msg.chat, InputOf(msg, Required(current).value)), Used(user, a.source)]
            && AccessAfter(access, route, user) == access[user := Consume(Lookup(access, user), a.source)])
      && (!(Fits(current, msg) && a.allowed) ==>
            && EventsOf(access, route, msg.chat, user) == []
            && AccessAfter(access, route, user) == access)
  {
  }

  /** An admitted attempt spends exactly one unit of its user's entitlement and no one else's. */
  lemma AdmittedAttemptSpendsOneUnit(access: map<int, Record>, route: Route, user: int, other: int)
    requires route.Run? && CheckAccess(access, user).allowed
    requires other != user
    ensures Units(Lookup(AccessAfter(access, route, user), user)) == Units(Lookup(access, user)) - 1
    ensures Lookup(AccessAfter(access, route, user), other) == Lookup(access, other)
  {
    ConsumeSpendsOneUnit(access, user);
  }

  /** Only `/start` and a menu label change a mode: every other message leaves every chat's mode as it was. */
  lemma ModeIsSticky(mode: map<int, Mode>, route: Route, chat: int, other: int)
    requires !route.Start? && !route.Select?
    ensures ModeOf(ModeAfter(mode, route, chat), other) == ModeOf(mode, other)
  {
  }

  /** No message makes a balance negative, unless the administrator grants a negative count. */
  lemma StepKeepsNonNegative(access: map<int, Record>, route: Route, user: int)
    requires NonNegative(access)
    requires route.CreditGrant? ==> route.count >= 0
    ensures NonNegative(AccessAfter(access, route, user))
  {
    if route.Run? {
      LedgerStaysNonNegative(access, user, CheckAccess(access, user).source, user, 0);
    } else if route.CreditGrant? {
      LedgerStaysNonNegative(access, user, NoSource, route.target, route.count);
    }
  }

  /**
   * The bot's process state: `user_access`, `user_state`, and a ghost trace
   * of capability runs and `register_use` calls.
   */
  class Bot {
    /** `ADMIN_ID`, read from the environment at start-up. */
    const adminId: int
    /** Python's `int()` on a command argument: `None` where it raises `ValueError`. */
    const parseInt: string -> Option<int>
    var access: map<int, Record>
    var mode: map<int, Mode>
    ghost var trace: seq<Event>

    constructor (adminId: int, parseInt: string -> Option<int>)
      ensures this.adminId == adminId && this.parseInt == parseInt
      ensures access == map[] && mode == map[] && trace == []
    {
      this.adminId := adminId;
      this.parseInt := parseInt;
      access := map[];
      mode := map[];
      trace := [];
    }

    /** `register_use(user, source)`: creates the default record if missing, then spends `source`. */
    method RegisterUse(user: int, source: Source)
      modifies this`access, this`trace
      ensures access == old(access)[user := Consume(Lookup(old(access), user), source)]
      ensures trace == old(trace) + [Used(user, source)]
    {
      if user !in access {
        access := access[user := Unseen];
      }
      var info := access[user];
      if source == Free {
        access := access[user := info.(freeUsed := true)];
      } else if source == Paid && info.paidRemaining > 0 {
        access := access[user := info.(paidRemaining := info.paidRemaining - 1)];
      }
      trace := trace + [Used(user, source)];
    }

    /**
     * `check_access`, then the capability, then `register_use` with the
     * source `check_access` chose, whatever the capability did.
     */
    method Gate(user: int, chat: int, cap: Capability, input: string, notice: seq<Reply>) returns (replies: seq<Reply>)
      modifies this`access, this`trace
      ensures var a := CheckAccess(old(access), user);
        && access == (if a.allowed then old(access)[user := Consume(Lookup(old(access), user), a.source)] else old(access))
        && trace == old(trace) + (if a.allowed then [Invoked(cap, chat, input), Used(user, a.source)] else [])
        && replies == (if a.allowed then notice else [NoAccess])
    {
      var a := CheckAccess(access, user);
      if !a.allowed {
        return [NoAccess];
      }
      replies := notice;
      // The capability runs here; it reports its own failures to the user and always returns.
      trace := trace + [Invoked(cap, chat, input)];
      RegisterUse(user, a.source);
    }

    /**
     * The state after handling `msg` from the given old state is the one its
     * classification prescribes, and so are the replies.
     */
    ghost predicate Stepped(msg: Message, access0: map<int, Record>, mode0: map<int, Mode>, trace0: seq<Event>, replies: seq<Reply>)
      reads this
    {
      var route := Classify(msg, adminId, parseInt, ModeOf(mode0, msg.chat));
      && access == AccessAfter(access0, route, UserId(msg))
      && mode == ModeAfter(mode0, route, msg.chat)
      && trace == trace0 + EventsOf(access0, route, msg.chat, UserId(msg))
      && replies == RepliesOf(access0, route, UserId(msg))
    }

    /** `telegram_webhook`: one inbound update, handled as one sequential step. */
    method Webhook(update: Option<Message>) returns (replies: seq<Reply>)
      modifies this`access, this`mode, this`trace
      ensures update.None? ==> replies == [] && access == old(access) && mode == old(mode) && trace == old(trace)
      ensures update.Some? ==>
        var msg := update.value;
        var route := Classify(msg, adminId, parseInt, ModeOf(old(mode), msg.chat));
        && access == AccessAfter(old(access), route, UserId(msg))
        && mode == ModeAfter(old(mode), route, msg.chat)
        && trace == old(trace) + EventsOf(old(access), route, msg.chat, UserId(msg))
        && replies == RepliesOf(old(access), route, UserId(msg))
    {
      if update.None? {
        return [];
      }
      replies := Handle(update.value);
    }

    /** The body of `telegram_webhook` once a message is present: the commands, then mode dispatch. */
    method Handle(msg: Message) returns (replies: seq<Reply>)
      modifies this`access, this`mode, this`trace
      ensures Stepped(msg, old(access), old(mode), old(trace), replies)
    {
      var chat := msg.chat;
      var text := msg.text;
      CommandsDistinct(msg);

      // the administrator's command
      if HasText(msg) && StartsWith(text.value, "/credit") {
        replies := Credit(msg);
        return;
      }

      if HasText(msg) && StartsWith(text.value, "/me") {
        var info := Lookup(access, UserId(msg));
        return [Status(info.freeUsed, info.paidRemaining)];
      }

      if text == Some("/start") {
        mode := mode[chat := Unset];
        return [MainMenu];
      }

      // menu selection
      if text == Some(WordLabel) {
        mode := mode[chat := Word];
        return [ModeChosen(Word)];
      }
      if text == Some(SummaryPdfLabel) {
        mode := mode[chat := SummaryPdf];
        return [ModeChosen(SummaryPdf)];
      }
      if text == Some(SummaryWordLabel) {
        mode := mode[chat := SummaryWord];
        return [ModeChosen(SummaryWord)];
      }
      if text == Some(SummaryTextLabel) {
        mode := mode[chat := SummaryText];
        return [ModeChosen(SummaryText)];
      }
      if text == Some(OcrPdfLabel) {
        mode := mode[chat := OcrPdf];
        return [ModeChosen(OcrPdf)];
      }

      replies := Dispatch(msg);
    }

    /** The `/credit USER_ID COUNT` branch: only the administrator, only two integer arguments. */
    method Credit(msg: Message) returns (replies: seq<Reply>)
      requires IsCredit(msg)
      modifies this`access
      ensures var route := CreditRoute(msg, adminId, parseInt);
        && access == AccessAfter(old(access), route, UserId(msg))
        && replies == RepliesOf(old(access), route, UserId(msg))
    {
      ghost var route := CreditRoute(msg, adminId, parseInt);
      if UserId(msg) != adminId {
        assert route == CreditDenied;
        return [NotAdmin];
      }
      var parts := Words(msg.text.value);
      if |parts| != 3 {
        assert route == CreditMalformed;
        return [CreditFormat];
      }
      var target := parseInt(parts[1]);
      var count := parseInt(parts[2]);
      if target.None? || count.None? {
        assert route == CreditNonNumeric;
        return [CreditNotNumeric];
      }
      assert route == CreditGrant(target.value, count.value);
      AddCredit(target.value, count.value);
      return [CreditAdded(target.value, count.value)];
    }

    /** The grant itself: create the target's record if missing, add `count` paid uses, mark the free use spent. */
    method AddCredit(target: int, count: int)
      modifies this`access
      ensures access == Grant(old(access), target, count)
    {
      if target !in access {
        access := access[target := Provisioned];
      }
      var info := access[target];
      access := access[target := info.(paidRemaining := info.paidRemaining + count)];
      access := access[target := access[target].(freeUsed := true)];
    }

    /** Mode-bound content: summarise text, or act on a PDF or Word file according to the chat's mode. */
    method Dispatch(msg: Message) returns (replies: seq<Reply>)
      modifies this`access, this`trace
      ensures var route := ContentRoute(msg, ModeOf(mode, msg.chat));
        && access == AccessAfter(old(access), route, UserId(msg))
        && trace == old(trace) + EventsOf(old(access), route, msg.chat, UserId(msg))
        && replies == RepliesOf(old(access), route, UserId(msg))
    {
      var chat := msg.chat;
      var user := UserId(msg);
      var current := ModeOf(mode, chat);

      // text to summarise
      if current == SummaryText && HasText(msg) && !StartsWith(msg.text.value, "/") {
        replies := Gate(user, chat, HandleSummaryText, msg.text.value, []);
        return;
      }

      // an attached file
      if msg.document.Some? {
        var mime := msg.document.value.mimeType;
        var fileId := msg.document.value.fileId;
        if mime == PdfMime {
          if current == Word {
            replies := Gate(user, chat, HandlePdfToWord, fileId, [Converting]);
            return;
          }
          if current == SummaryPdf {
            replies := Gate(user, chat, HandleSummaryPdf, fileId, []);
            return;
          }
          if current == OcrPdf {
            replies := Gate(user, chat, HandleOcrPdf, fileId, []);
            return;
          }
          return [PdfWithoutMode, MainMenu];
        }
        if mime == DocxMime {
          if current == SummaryWord {
            replies := Gate(user, chat, HandleSummaryWord, fileId, []);
            return;
          }
          return [WordModeNeeded];
        }
        return [UnsupportedFile];
      }

      if HasText(msg) {
        return [StartOver];
      }
      return [];
    }
  }

  /**
   * A new user starts, picks PDF to Word and sends a PDF: the free use is
   * spent on it; the same upload again is refused without running anything.
   */
  method ScenarioFreeUseThenDenied() {
    var user := 77;
    var bot := new Bot(1, (s: string) => None);
    var pdf := Some(Message(user, None, None, Some(Document(PdfMime, "f"))));

    var r := bot.Webhook(Some(Message(user, None, Some("/start"), None)));
    assert r == [MainMenu] && ModeOf(bot.mode, user) == Unset;

    r := bot.Webhook(Some(Message(user, None, Some(WordLabel), None)));
    assert r == [ModeChosen(Word)] && ModeOf(bot.mode, user) == Word;

    r := bot.Webhook(pdf);
    assert r == [Converting];
    assert bot.access[user] == Record(true, 0);
    assert bot.trace == [Invoked(HandlePdfToWord, user, "f"), Used(user, Free)];

    r := bot.Webhook(pdf);
    assert r == [NoAccess] && bot.access[user] == Record(true, 0);
    assert |bot.trace| == 2;
  }

  /** The integer parser of the sample conversation: it knows "77" and "1". */
  function SampleParse(s: string): Option<int> {
    if s == "77" then Some(77) else if s == "1" then Some(1) else None
  }

  /** The administrator's `/credit 77 1`, from chat 1. */
  function SampleGrant(): Message {
    Message(1, None, Some("/credit" + ([' '] + ("77" + ([' '] + "1")))), None)
  }

  /** `/credit 77 1` is a `/credit` command whose words are the command, the user and the count. */
  lemma SampleGrantWords()
    ensures IsCredit(SampleGrant())
    ensures Words(SampleGrant().text.value) == ["/credit", "77", "1"]
  {
    var command := SampleGrant().text.value;
    assert command[..7] == "/credit";
    WordsOfThree("/credit", ' ', "77", ' ', "1");
  }

  /** `/credit 77 1` from the administrator is a grant of one credit to user 77. */
  lemma SampleGrantRoute()
    ensures Classify(SampleGrant(), 1, SampleParse, Unset) == CreditGrant(77, 1)
  {
    SampleGrantWords();
    assert SampleParse("77") == Some(77) && SampleParse("1") == Some(1);
    assert CreditRoute(SampleGrant(), 1, SampleParse) == CreditGrant(77, 1);
  }

  /** The administrator grants a user not seen before one credit: the new record has its free use marked spent. */
  method ScenarioGrant() {
    var bot := new Bot(1, SampleParse);
    SampleGrantRoute();
    var route := CreditGrant(77, 1);
    assert Grant(map[], 77, 1) == map[77 := Record(true, 1)];
    var r := bot.Webhook(Some(SampleGrant()));
    assert r == RepliesOf(map[], route, 1) == [CreditAdded(77, 1)];
    assert bot.access == map[77 := Record(true, 1)];
    assert bot.trace == [];
  }

  /**
   * A user holding one credit picks the PDF summary and sends a PDF: the
   * credit is spent whatever the summariser made of the file, and the mode
   * stays.
   */
  method ScenarioPaidAttemptIsSpent(bot: Bot)
    requires bot.access == map[77 := Record(true, 1)] && bot.mode == map[] && bot.trace == []
    modifies bot
  {
    var user := 77;
    var r := bot.Webhook(Some(Message(user, None, Some(SummaryPdfLabel), None)));
    assert ModeOf(bot.mode, user) == SummaryPdf;

    r := bot.Webhook(Some(Message(user, None, None, Some(Document(PdfMime, "g")))));
    assert r == [] && bot.access[user] == Record(true, 0);
    assert bot.trace == [Invoked(HandleSummaryPdf, user, "g"), Used(user, Paid)];
    assert ModeOf(bot.mode, user) == SummaryPdf;
  }
}
