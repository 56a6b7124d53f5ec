/**
  What one turn of the backend/index.js handler does, stated about
  `Backend.TurnEffect` (which the `Backend.HandleTurn` method is proved to
  carry out on the store): session loading and tenant resolution, the human
  handoff, the admin gate, the cart, checkout and confirmation, the AI quota,
  and the invariants a turn and an assignment keep.
 */
module BackendProps {
  import opened Options
  import opened Strings
  import opened Tables
  import opened Commands
  import opened Cart
  import opened Governor
  import opened Webhook
  import opened Words
  import Backend

  /** The store once the prologue has run (last customer, tenant override). */
  function Loaded(db: Db, inp: Input): Db {
    Backend.PrologueEffect(db, inp).0
  }

  /** The session the branches see. */
  function SessionOf(db: Db, inp: Input): Session {
    Backend.PrologueEffect(db, inp).1
  }

  /** The sender's row after the turn. */
  function RowAfter(db: Db, cfg: Config, inp: Input): Option<SessionRow> {
    var e := Backend.TurnEffect(db, cfg, inp);
    if From(inp) in e.db.sessions then Some(e.db.sessions[From(inp)]) else None
  }

  /** A turn is the prologue followed by the branches. */
  lemma TurnIsDispatch(db: Db, cfg: Config, inp: Input)
    ensures Backend.TurnEffect(db, cfg, inp) == Backend.DispatchEffect(Loaded(db, inp), cfg, inp, SessionOf(db, inp))
  {
  }

  // Sessions and tenants.

  /** A saved session reads back as it was (its state and order id being ones `getSession` keeps). */
  lemma SessionRoundTrip(sessions: map<string, SessionRow>, s: Session)
    requires s.state != "" && s.lastOrderId != Some("")
    ensures Backend.GetSession(Save(sessions, s), s.fromNumber) == s
  {
    DataRoundTrip(s.data);
  }

  /**
    The prologue writes only the last customer, and only for a message that
    is not an admin command.
   */
  lemma PrologueWrites(db: Db, inp: Input)
    ensures var db1 := Loaded(db, inp);
      && db1.companies == db.companies && db1.customerCompany == db.customerCompany
      && db1.orders == db.orders && db1.outbox == db.outbox
      && (IsAdminCommand(inp) ==> db1.settings == db.settings)
      && (!IsAdminCommand(inp) ==> db1.settings == db.settings[LastCustomerKey := From(inp)])
  {
    var db0 := RememberCustomer(db, inp);
    var g := Backend.GetSession(db0.sessions, From(inp));
    if From(inp) in db0.customerCompany && db0.customerCompany[From(inp)].companyId != "" {
      var s1 := g.(data := g.data.(companyId := db0.customerCompany[From(inp)].companyId));
      assert Loaded(db, inp) == SaveTo(db0, s1);
    } else {
      assert Loaded(db, inp) == db0;
    }
  }

  /**
    A non-empty `customer_company` entry for the sender overrides the
    session's company, and the session is saved so before any branch runs;
    without one the session is the stored one and nothing is saved.
   */
  lemma TenantOverride(db: Db, inp: Input)
    ensures SessionOf(db, inp).fromNumber == From(inp)
    ensures var from := From(inp);
      var g := Backend.GetSession(db.sessions, from);
      from in db.customerCompany && db.customerCompany[from].companyId != "" ==>
        && SessionOf(db, inp) == g.(data := g.data.(companyId := db.customerCompany[from].companyId))
        && Loaded(db, inp).sessions == Save(db.sessions, SessionOf(db, inp))
    ensures var from := From(inp);
      from !in db.customerCompany || db.customerCompany[from].companyId == "" ==>
        SessionOf(db, inp) == Backend.GetSession(db.sessions, from) && Loaded(db, inp).sessions == db.sessions
  {
    assert RememberCustomer(db, inp).sessions == db.sessions;
    assert RememberCustomer(db, inp).customerCompany == db.customerCompany;
  }

  /**
    With the seeded default company in place every turn has a company: the
    session's own (its id lowercased) when it exists, the default otherwise.
   */
  lemma EveryTurnHasACompany(db: Db, inp: Input)
    requires HasDefaultCompany(db.companies)
    ensures var s := SessionOf(db, inp);
      var c := Backend.CompanyOf(Loaded(db, inp), s);
      var key := CompanyKey(s.data.companyId, true);
      && c.Some?
      && (FindCompany(db.companies, key).Some? ==> c == FindCompany(db.companies, key))
      && (FindCompany(db.companies, key).None? ==> c.value.id == DefaultCompanyId)
  {
  }

  /** Company ids as the dashboard creates them: non-empty and lowercase. */
  predicate LowercaseIds(companies: seq<Company>) {
    forall i :: 0 <= i < |companies| ==> companies[i].id != "" && Lower(companies[i].id) == companies[i].id
  }

  lemma LowercaseFound(companies: seq<Company>, id: string)
    requires LowercaseIds(companies) && FindCompany(companies, id).Some?
    ensures id != "" && Lower(id) == id && CompanyKey(id, true) == id
  {
    var i :| 0 <= i < |companies| && companies[i].id == id;
  }

  /**
    POST /api/assignments succeeds exactly for a known company; it then
    upserts the number's assignment and, when the number has a session row,
    the company stored in it, and writes nothing else. A failed request
    writes nothing.
   */
  lemma AssignmentWrites(db: Db, rawFrom: string, rawCompany: string, now: string)
    ensures var (db1, ok) := Backend.AssignEffect(db, rawFrom, rawCompany, now);
      var from := NormalizeTarget(Trim(rawFrom));
      var id := Trim(rawCompany);
      && (ok <==> FindCompany(db.companies, id).Some?)
      && (!ok ==> db1 == db)
      && (ok ==> db1.customerCompany == db.customerCompany[from := Assignment(id, now)])
      && (ok && from in db.sessions ==>
            db1.sessions == db.sessions[from := db.sessions[from].(data := db.sessions[from].data.(companyId := Some(id)))])
      && (from !in db.sessions ==> db1.sessions == db.sessions)
      && db1.companies == db.companies && db1.settings == db.settings
      && db1.orders == db.orders && db1.outbox == db.outbox
  {
    var from := NormalizeTarget(Trim(rawFrom));
    var id := Trim(rawCompany);
    var r := Backend.AssignEffect(db, rawFrom, rawCompany, now);
    if FindCompany(db.companies, id).None? {
      assert r == (db, false);
    } else {
      var db1 := db.(customerCompany := db.customerCompany[from := Assignment(id, now)]);
      if from in db.sessions {
        var row := db.sessions[from];
        assert r == (db1.(sessions := db.sessions[from := row.(data := row.data.(companyId := Some(id)))]), true);
      } else {
        assert r == (db1, true);
      }
    }
  }

  /**
    Once the dashboard has assigned a company to a number, "menu" from that
    number shows the assigned company's menu, whatever company its session
    held before.
   */
  lemma AssignedCompanyServesMenu(db: Db, cfg: Config, rawFrom: string, rawCompany: string, now: string, inp: Input)
    requires LowercaseIds(db.companies)
    requires Backend.AssignEffect(db, rawFrom, rawCompany, now).1
    requires From(inp) == NormalizeTarget(Trim(rawFrom)) && Text(inp) == "menu"
    ensures FindCompany(db.companies, Trim(rawCompany)).Some?
    ensures Backend.TurnEffect(Backend.AssignEffect(db, rawFrom, rawCompany, now).0, cfg, inp).reply
      == Some(MenuText(FindCompany(db.companies, Trim(rawCompany)).value))
  {
    var id := Trim(rawCompany);
    var db0 := Backend.AssignEffect(db, rawFrom, rawCompany, now).0;
    AssignmentWrites(db, rawFrom, rawCompany, now);
    LowercaseFound(db.companies, id);
    TenantOverride(db0, inp);
    PrologueWrites(db0, inp);
    var s := SessionOf(db0, inp);
    var db1 := Loaded(db0, inp);
    assert s.data.companyId == id;
    MenuWord(db1, cfg, inp, s);
    var s1 := s.(state := Menu, data := s.data.(humanNotified := false));
    assert Backend.CompanyOf(SaveTo(db1, s1), s1) == FindCompany(db.companies, id);
  }

  /** "menu" and "hola" show the menu from any state. */
  lemma MenuWord(db: Db, cfg: Config, inp: Input, s: Session)
    requires Text(inp) == "menu" || Text(inp) == "hola"
    ensures Backend.DispatchEffect(db, cfg, inp, s) == Backend.MenuEffect(db, s)
  {
    NotAdminWord(inp);
  }

  // The human handoff.

  /**
    A human trigger, from any state, saves the session in HUMAN with
    `humanNotified` set and, the company being known, notifies the operators
    once more and acknowledges.
   */
  lemma HumanTriggerFromAnyState(db: Db, cfg: Config, inp: Input)
    requires IsHumanTrigger(Text(inp))
    ensures var e := Backend.TurnEffect(db, cfg, inp);
      var s := SessionOf(db, inp);
      && RowAfter(db, cfg, inp) == Some(ToRow(s.(state := Human, data := s.data.(humanNotified := true))))
      && (HasDefaultCompany(db.companies) ==>
            e.reply == Some(Backend.HumanAck)
            && e.db.outbox == db.outbox + [Backend.Notification(Backend.CompanyOf(db, s).value.name, From(inp), Body(inp))])
  {
    TenantOverride(db, inp);
    PrologueWrites(db, inp);
    TurnIsDispatch(db, cfg, inp);
    var s := SessionOf(db, inp);
    RouteTrigger(Loaded(db, inp), cfg, inp, s);
    HandOffRow(Loaded(db, inp), inp, s);
    SameCompany(Loaded(db, inp), db, s, s.(state := Human, data := s.data.(humanNotified := true)));
  }

  /** The company a session resolves to depends only on the companies and the session's company id. */
  lemma SameCompany(db: Db, db': Db, s: Session, s': Session)
    requires db.companies == db'.companies && s.data.companyId == s'.data.companyId
    ensures Backend.CompanyOf(db, s) == Backend.CompanyOf(db', s')
  {
  }

  /** With the seeded default company in place a company is always found. */
  lemma CompanyFound(db: Db, s: Session)
    requires HasDefaultCompany(db.companies)
    ensures Backend.CompanyOf(db, s).Some?
  {
  }

  /** In HUMAN, "menu" or "hola" goes back to MENU, clears `humanNotified` and shows the menu. */
  lemma HumanMenuExit(db: Db, cfg: Config, inp: Input)
    requires SessionOf(db, inp).state == Human && (Text(inp) == "menu" || Text(inp) == "hola")
    ensures var e := Backend.TurnEffect(db, cfg, inp);
      var s := SessionOf(db, inp);
      && RowAfter(db, cfg, inp) == Some(ToRow(s.(state := Menu, data := s.data.(humanNotified := false))))
      && (HasDefaultCompany(db.companies) ==> e.reply == Some(MenuText(Backend.CompanyOf(db, s).value)))
  {
    TenantOverride(db, inp);
    PrologueWrites(db, inp);
    TurnIsDispatch(db, cfg, inp);
    var s := SessionOf(db, inp);
    MenuWord(Loaded(db, inp), cfg, inp, s);
    MenuRow(Loaded(db, inp), s);
    SameCompany(Loaded(db, inp), db, s, s.(state := Menu, data := s.data.(humanNotified := false)));
  }

  /** In HUMAN any other message that is not an admin command is answered with the wait notice and changes nothing. */
  lemma HumanWaits(db: Db, cfg: Config, inp: Input)
    requires SessionOf(db, inp).state == Human
    requires !IsHumanTrigger(Text(inp)) && Text(inp) != "menu" && Text(inp) != "hola" && !IsAdminCommand(inp)
    ensures Backend.TurnEffect(db, cfg, inp) == Reply(Loaded(db, inp), Backend.HumanWait)
  {
  }

  // The admin gate.

  /** Every admin command reaches the admin branch, whatever the session's state. */
  lemma AdminReachesGate(db: Db, cfg: Config, inp: Input, s: Session)
    requires IsAdminCommand(inp)
    ensures Backend.DispatchEffect(db, cfg, inp, s) == Backend.AdminEffect(db, cfg, inp)
  {
    AdminIsNoWord(inp);
  }

  /**
    An admin command from anyone but `ADMIN_NUMBER` (nobody, when it is
    unset) is refused and writes nothing beyond the tenant override.
   */
  lemma NonAdminChangesNothing(db: Db, cfg: Config, inp: Input)
    requires IsAdminCommand(inp) && !IsAdmin(cfg.adminNumber, From(inp))
    ensures Backend.TurnEffect(db, cfg, inp) == Reply(Loaded(db, inp), Restricted)
    ensures Loaded(db, inp).settings == db.settings
  {
    AdminReachesGate(Loaded(db, inp), cfg, inp, SessionOf(db, inp));
  }

  /** Without an `ADMIN_NUMBER` every admin command is refused. */
  lemma NoAdminNumberNoAdmin(db: Db, cfg: Config, inp: Input)
    requires IsAdminCommand(inp) && cfg.adminNumber == ""
    ensures Backend.TurnEffect(db, cfg, inp).reply == Some(Restricted)
  {
    NonAdminChangesNothing(db, cfg, inp);
  }

  /**
    "admin company set" naming an unknown company, or with no target and no
    last customer, answers and writes nothing.
   */
  lemma CompanySetWithoutEffect(db: Db, cfg: Config, inp: Input, id: string, arg: string)
    requires IsAdminCommand(inp) && IsAdmin(cfg.adminNumber, From(inp))
    requires ParseCompanySet(Cmd(inp)) == Some((id, arg))
    requires FindCompany(db.companies, Lower(id)).None? || (Trim(arg) == "" && GetSetting(db.settings, LastCustomerKey) == "")
    ensures Backend.TurnEffect(db, cfg, inp).db == Loaded(db, inp)
  {
    AdminReachesGate(Loaded(db, inp), cfg, inp, SessionOf(db, inp));
    CompanySetIsNoOtherCommand(Cmd(inp));
  }

  /**
    "admin company set <id> [target]" from the admin, with a known company
    and a target: the assignment table maps the normalised target to the
    lowercased id stamped with the turn's time, the target's session reads
    back with that company and everything else it held, and no other
    session row changes.
   */
  lemma CompanySetAssigns(db: Db, cfg: Config, inp: Input, rawId: string, arg: string)
    requires IsAdminCommand(inp) && IsAdmin(cfg.adminNumber, From(inp))
    requires ParseCompanySet(Cmd(inp)) == Some((rawId, arg))
    requires FindCompany(db.companies, Lower(rawId)).Some? && Backend.TargetOf(db, arg) != ""
    ensures var e := Backend.TurnEffect(db, cfg, inp);
      var db1 := Loaded(db, inp);
      var target := NormalizeTarget(Backend.TargetOf(db, arg));
      var before := Backend.GetSession(db1.sessions, target);
      && e.db.customerCompany == db.customerCompany[target := Assignment(Lower(rawId), inp.now)]
      && OnlyRow(db1.sessions, e.db.sessions, target)
      && Backend.GetSession(e.db.sessions, target) == before.(data := before.data.(companyId := Lower(rawId)))
      && e.reply == Some(CompanySetReply(target, FindCompany(db.companies, Lower(rawId)).value))
  {
    PrologueWrites(db, inp);
    AdminReachesGate(Loaded(db, inp), cfg, inp, SessionOf(db, inp));
    CompanySetIsNoOtherCommand(Cmd(inp));
    CompanySetWrites(Loaded(db, inp), inp, rawId, arg);
  }

  lemma CompanySetWrites(db: Db, inp: Input, rawId: string, arg: string)
    requires FindCompany(db.companies, Lower(rawId)).Some? && Backend.TargetOf(db, arg) != ""
    ensures var e := Backend.CompanySetEffect(db, inp, rawId, arg);
      var target := NormalizeTarget(Backend.TargetOf(db, arg));
      var before := Backend.GetSession(db.sessions, target);
      && e.db.customerCompany == db.customerCompany[target := Assignment(Lower(rawId), inp.now)]
      && OnlyRow(db.sessions, e.db.sessions, target)
      && Backend.GetSession(e.db.sessions, target) == before.(data := before.data.(companyId := Lower(rawId)))
      && e.reply == Some(CompanySetReply(target, FindCompany(db.companies, Lower(rawId)).value))
  {
    var target := NormalizeTarget(Backend.TargetOf(db, arg));
    var before := Backend.GetSession(db.sessions, target);
    var s2 := before.(data := before.data.(companyId := Lower(rawId)));
    SaveOnly(db.sessions, s2);
    SessionRoundTrip(db.sessions, s2);
  }

  /**
    "admin ai set <mode> [target]": without a target and a last customer
    nothing is written; otherwise the target's session reads back with the
    mode lowercased and everything else it held, and no other row changes.
   */
  lemma AiSetWrites(db: Db, mode: string, arg: string)
    ensures var e := Backend.AiSetEffect(db, mode, arg);
      var t := Backend.TargetOf(db, arg);
      && e.db.customerCompany == db.customerCompany
      && (t == "" ==> e == Reply(db, NoActiveCustomer))
      && (t != "" ==>
            var target := NormalizeTarget(t);
            var before := Backend.GetSession(db.sessions, target);
            && OnlyRow(db.sessions, e.db.sessions, target)
            && Backend.GetSession(e.db.sessions, target) == before.(data := before.data.(aiMode := Lower(mode)))
            && e.reply == Some(AiSetReply(mode, target)))
  {
    var t := Backend.TargetOf(db, arg);
    if t != "" {
      var before := Backend.GetSession(db.sessions, NormalizeTarget(t));
      var s2 := before.(data := before.data.(aiMode := Lower(mode)));
      SaveOnly(db.sessions, s2);
      SessionRoundTrip(db.sessions, s2);
    }
  }

  /** "admin ai status" for the customer "admin ai set" just changed reports the mode that was set. */
  lemma AiStatusAfterSet(db: Db, mode: string, arg: string)
    requires Backend.TargetOf(db, arg) != ""
    ensures var db1 := Backend.AiSetEffect(db, mode, arg).db;
      Backend.AiStatusEffect(db1, arg) == Reply(db1, AiStatusReply(Lower(mode)))
  {
    AiSetWrites(db, mode, arg);
  }

  /** A command from the admin that names no known sub-command is answered "Admin OK" and changes nothing. */
  lemma UnknownAdminCommand(db: Db, cfg: Config, inp: Input)
    requires IsAdminCommand(inp) && IsAdmin(cfg.adminNumber, From(inp))
    requires Cmd(inp) != "admin whoami" && Cmd(inp) != "admin company list"
    requires ParseCompanySet(Cmd(inp)).None? && ParseAiSet(Cmd(inp)).None? && ParseAiStatus(Cmd(inp)).None?
    ensures Backend.TurnEffect(db, cfg, inp) == Reply(Loaded(db, inp), AdminOk)
  {
    AdminReachesGate(Loaded(db, inp), cfg, inp, SessionOf(db, inp));
  }

  // The cart.

  /**
    "agregar n": an id that is not in the company's catalog is refused and
    nothing is written; otherwise the session is saved with `n` appended to
    its cart and nothing else changed, and the reply shows the product and
    the cart.
   */
  lemma AddItem(db: Db, cfg: Config, inp: Input, n: nat)
    requires ParseAdd(Text(inp)) == Some(n) && SessionOf(db, inp).state != Human
    ensures var e := Backend.TurnEffect(db, cfg, inp);
      var s := SessionOf(db, inp);
      var c := Backend.CompanyOf(db, s);
      && (c.None? ==> e == Crash(Loaded(db, inp)))
      && (c.Some? && FindProduct(c.value.catalog, n).None? ==> e == Reply(Loaded(db, inp), UnknownProduct))
      && (c.Some? && FindProduct(c.value.catalog, n).Some? ==>
            && e.db == SaveTo(Loaded(db, inp), s.(cart := s.cart + [n]))
            && e.reply == Some(AddedReply(FindProduct(c.value.catalog, n).value.name,
                                          CartView(c, s.cart + [n], false).value)))
  {
    PrologueWrites(db, inp);
    TurnIsDispatch(db, cfg, inp);
    var s := SessionOf(db, inp);
    RouteAdd(Loaded(db, inp), cfg, inp, s, n);
    SameCompany(Loaded(db, inp), db, s, s);
  }

  /** The branches between the admin commands and checkout let a message through. */
  lemma ReachesCheckout(db: Db, cfg: Config, inp: Input, s: Session)
    requires s.state != Human && !IsAdminCommand(inp) && ParseAdd(Text(inp)).None?
    requires !IsHumanTrigger(Text(inp)) && Text(inp) != "menu" && Text(inp) != "hola" && Text(inp) != "catalogo" && Text(inp) != "carrito"
    requires !(Enrolled(s.data.aiMode, true) && s.state == Menu && !IsReserved(Text(inp)))
    ensures Backend.DispatchEffect(db, cfg, inp, s) == Backend.CheckoutEffect(db, inp, s)
  {
  }

  /** A single reserved word of the checkout flow reaches the checkout branches. */
  lemma CheckoutWord(db: Db, cfg: Config, inp: Input, s: Session)
    requires Text(inp) == "checkout" || Text(inp) == "confirmar"
    requires s.state != Human
    ensures Backend.DispatchEffect(db, cfg, inp, s) == Backend.CheckoutEffect(db, inp, s)
  {
    CheckoutWordIsNoCommand(inp);
    CheckoutWordFacts(Text(inp));
    ReachesCheckout(db, cfg, inp, s);
  }

  // Checkout and confirmation.

  /** "checkout" with an empty cart changes nothing; with items it asks for the name. */
  lemma CheckoutStarts(db: Db, cfg: Config, inp: Input)
    requires Text(inp) == "checkout" && SessionOf(db, inp).state != Human
    ensures var e := Backend.TurnEffect(db, cfg, inp);
      var s := SessionOf(db, inp);
      && (s.cart == [] ==> e == Reply(Loaded(db, inp), CheckoutEmpty))
      && (s.cart != [] ==> e == Reply(SaveTo(Loaded(db, inp), s.(state := AskName)), AskNamePrompt))
  {
    CheckoutWord(Loaded(db, inp), cfg, inp, SessionOf(db, inp));
  }

  /**
    In ASK_NAME a message that is no reserved word, command or "agregar"
    records the body as the name and asks for the contact.
   */
  lemma NameStep(db: Db, cfg: Config, inp: Input)
    requires SessionOf(db, inp).state == AskName
    requires !IsReserved(Text(inp)) && !IsAdminCommand(inp) && ParseAdd(Text(inp)).None?
    ensures var s := SessionOf(db, inp);
      Backend.TurnEffect(db, cfg, inp)
        == Reply(SaveTo(Loaded(db, inp), s.(state := AskContact, data := s.data.(name := Some(Body(inp))))), AskContactPrompt)
  {
    TurnIsDispatch(db, cfg, inp);
    UnreservedIsNoWord(Text(inp));
    ReachesCheckout(Loaded(db, inp), cfg, inp, SessionOf(db, inp));
    AnswerStep(Loaded(db, inp), inp, SessionOf(db, inp));
  }

  /**
    In ASK_CONTACT such a message records the body as the contact, moves to
    READY and shows the summary of the cart.
   */
  lemma ContactStep(db: Db, cfg: Config, inp: Input)
    requires SessionOf(db, inp).state == AskContact && HasDefaultCompany(db.companies)
    requires !IsReserved(Text(inp)) && !IsAdminCommand(inp) && ParseAdd(Text(inp)).None?
    ensures var s := SessionOf(db, inp);
      var s1 := s.(state := Ready, data := s.data.(contact := Some(Body(inp))));
      Backend.TurnEffect(db, cfg, inp)
        == Reply(SaveTo(Loaded(db, inp), s1), SummaryReply(CartView(Backend.CompanyOf(db, s), s.cart, false).value))
  {
    PrologueWrites(db, inp);
    TurnIsDispatch(db, cfg, inp);
    UnreservedIsNoWord(Text(inp));
    var s := SessionOf(db, inp);
    ReachesCheckout(Loaded(db, inp), cfg, inp, s);
    AnswerStep(Loaded(db, inp), inp, s);
    SameCompany(SaveTo(Loaded(db, inp), s.(state := Ready, data := s.data.(contact := Some(Body(inp))))), db, s.(state := Ready, data := s.data.(contact := Some(Body(inp)))), s);
  }

  /** The checkout branches record an answer that is no reserved word and move on. */
  lemma AnswerStep(db: Db, inp: Input, s: Session)
    requires (s.state == AskName || s.state == AskContact) && !IsReserved(Text(inp))
    ensures s.state == AskName ==>
      Backend.CheckoutEffect(db, inp, s) == Reply(SaveTo(db, s.(state := AskContact, data := s.data.(name := Some(Body(inp))))), AskContactPrompt)
    ensures var s1 := s.(state := Ready, data := s.data.(contact := Some(Body(inp))));
      s.state == AskContact ==>
        Backend.CheckoutEffect(db, inp, s) == match CartView(Backend.CompanyOf(SaveTo(db, s1), s1), s1.cart, false)
          case None => Crash(SaveTo(db, s1))
          case Some(t) => Reply(SaveTo(db, s1), SummaryReply(t))
  {
    UnreservedIsNoWord(Text(inp));
  }

  /** The step a question answers into. */
  function NextStep(state: string): string {
    if state == AskName then AskContact else Ready
  }

  /**
    In ASK_NAME and ASK_CONTACT a reserved word never advances the flow and
    never becomes the name or the contact.
   */
  lemma ReservedWordsDoNotAdvance(db: Db, cfg: Config, inp: Input)
    requires SessionOf(db, inp).state == AskName || SessionOf(db, inp).state == AskContact
    requires IsReserved(Text(inp))
    ensures var s := SessionOf(db, inp);
      var row := RowAfter(db, cfg, inp);
      && row.Some?
      && row.value.state != NextStep(s.state)
      && MergeData(row.value.data).name == s.data.name
      && MergeData(row.value.data).contact == s.data.contact
  {
    var s := SessionOf(db, inp);
    TenantOverride(db, inp);
    TurnIsDispatch(db, cfg, inp);
    DataRoundTrip(s.data);
    ReservedIsNoCommand(inp);
    ReservedStep(Loaded(db, inp), cfg, inp, s);
  }

  lemma ReservedStep(db: Db, cfg: Config, inp: Input, s: Session)
    requires s.state == AskName || s.state == AskContact
    requires IsReserved(Text(inp)) && !IsAdminCommand(inp) && ParseAdd(Text(inp)).None?
    requires s.fromNumber in db.sessions && db.sessions[s.fromNumber].state == s.state
    requires MergeData(db.sessions[s.fromNumber].data) == s.data
    ensures var e := Backend.DispatchEffect(db, cfg, inp, s);
      && s.fromNumber in e.db.sessions
      && e.db.sessions[s.fromNumber].state != NextStep(s.state)
      && MergeData(e.db.sessions[s.fromNumber].data).name == s.data.name
      && MergeData(e.db.sessions[s.fromNumber].data).contact == s.data.contact
  {
    var t := Text(inp);
    if IsHumanTrigger(t) {
      RouteTrigger(db, cfg, inp, s);
      HandOffRow(db, inp, s);
    } else if t == "menu" || t == "hola" {
      MenuWord(db, cfg, inp, s);
      MenuRow(db, s);
    } else if t == "catalogo" || t == "carrito" {
      RouteView(db, cfg, inp, s);
    } else {
      ReachesCheckout(db, cfg, inp, s);
      ReservedCheckoutStep(db, inp, s);
    }
  }

  /** The handoff saves the session in HUMAN with `humanNotified` set, the rest of it as it was. */
  lemma HandOffRow(db: Db, inp: Input, s: Session)
    ensures var e := Backend.HandOffEffect(db, inp, s);
      && s.fromNumber in e.db.sessions
      && e.db.sessions[s.fromNumber] == ToRow(s.(state := Human, data := s.data.(humanNotified := true)))
      && MergeData(e.db.sessions[s.fromNumber].data) == s.data.(humanNotified := true)
  {
    DataRoundTrip(s.data.(humanNotified := true));
  }

  /** Entering the menu saves the session in MENU with `humanNotified` cleared, the rest of it as it was. */
  lemma MenuRow(db: Db, s: Session)
    ensures var e := Backend.MenuEffect(db, s);
      && s.fromNumber in e.db.sessions
      && e.db.sessions[s.fromNumber] == ToRow(s.(state := Menu, data := s.data.(humanNotified := false)))
      && MergeData(e.db.sessions[s.fromNumber].data) == s.data.(humanNotified := false)
  {
    DataRoundTrip(s.data.(humanNotified := false));
  }

  lemma RouteTrigger(db: Db, cfg: Config, inp: Input, s: Session)
    requires IsHumanTrigger(Text(inp))
    ensures Backend.DispatchEffect(db, cfg, inp, s) == Backend.HandOffEffect(db, inp, s)
  {
  }

  /** "catalogo" and "carrito" outside HUMAN only answer. */
  lemma RouteView(db: Db, cfg: Config, inp: Input, s: Session)
    requires Text(inp) == "catalogo" || Text(inp) == "carrito"
    requires s.state != Human
    ensures Backend.DispatchEffect(db, cfg, inp, s).db == db
    ensures !Backend.DispatchEffect(db, cfg, inp, s).modelCalled
  {
    if Text(inp) == "catalogo" {
      RouteCatalogo(db, cfg, inp, s);
    } else {
      RouteCarrito(db, cfg, inp, s);
    }
  }

  lemma RouteCatalogo(db: Db, cfg: Config, inp: Input, s: Session)
    requires Text(inp) == "catalogo" && s.state != Human
    ensures Backend.DispatchEffect(db, cfg, inp, s) == CatalogEffect(db, Backend.CompanyOf(db, s))
  {
    ViewWordIsNoCommand(inp);
  }

  lemma RouteCarrito(db: Db, cfg: Config, inp: Input, s: Session)
    requires Text(inp) == "carrito" && s.state != Human
    ensures Backend.DispatchEffect(db, cfg, inp, s) == Effect(db, CartView(Backend.CompanyOf(db, s), s.cart, false), false)
  {
    ViewWordIsNoCommand(inp);
  }

  lemma ReservedCheckoutStep(db: Db, inp: Input, s: Session)
    requires s.state == AskName || s.state == AskContact
    requires IsReserved(Text(inp))
    requires s.fromNumber in db.sessions && db.sessions[s.fromNumber].state == s.state
    requires MergeData(db.sessions[s.fromNumber].data) == s.data
    ensures var e := Backend.CheckoutEffect(db, inp, s);
      && s.fromNumber in e.db.sessions
      && e.db.sessions[s.fromNumber].state != NextStep(s.state)
      && MergeData(e.db.sessions[s.fromNumber].data) == s.data
  {
    DataRoundTrip(s.data);
    if Text(inp) == "checkout" {
      CheckoutWordCases(db, inp, s);
    } else {
      ReservedDefault(db, inp, s);
    }
  }

  lemma CheckoutWordCases(db: Db, inp: Input, s: Session)
    requires Text(inp) == "checkout"
    ensures Backend.CheckoutEffect(db, inp, s)
      == if s.cart == [] then Reply(db, CheckoutEmpty) else Reply(SaveTo(db, s.(state := AskName)), AskNamePrompt)
  {
  }

  lemma ReservedDefault(db: Db, inp: Input, s: Session)
    requires s.state == AskName || s.state == AskContact
    requires IsReserved(Text(inp)) && Text(inp) != "checkout"
    ensures Backend.CheckoutEffect(db, inp, s) == Reply(SaveTo(db, s), DefaultReply)
  {
  }

  /**
    "confirmar" in READY, the order id being new: the order is inserted with
    the grouped lines, the total of their subtotals, the raw cart and the
    statuses "pending" and "confirmed"; the session is saved with an empty
    cart, in MENU, with the new order id, and its data bag (AI mode and
    count, name, contact) untouched.
   */
  lemma ConfirmPlacesOrder(db: Db, cfg: Config, inp: Input)
    requires SessionOf(db, inp).state == Ready && Text(inp) == "confirmar"
    requires HasDefaultCompany(db.companies) && OrderId(inp) !in db.orders
    ensures var e := Backend.TurnEffect(db, cfg, inp);
      var s := SessionOf(db, inp);
      var c := Backend.CompanyOf(db, s).value;
      var id := OrderId(inp);
      && e.db.orders.Keys == db.orders.Keys + {id}
      && (forall k :: k in db.orders ==> e.db.orders[k] == db.orders[k])
      && e.db.orders[id].items == s.cart
      && e.db.orders[id].itemsDetailed == Lines(c.catalog, s.cart, false)
      && e.db.orders[id].total == SumSubtotals(e.db.orders[id].itemsDetailed)
      && e.db.orders[id].companyId == c.id
      && e.db.orders[id].paymentStatus == "pending" && e.db.orders[id].orderStatus == "confirmed"
      && RowAfter(db, cfg, inp) == Some(ToRow(s.(cart := [], state := Menu, lastOrderId := Some(id))))
      && e.reply == Some(ConfirmedReply(id, e.db.orders[id].total))
  {
    PrologueWrites(db, inp);
    TenantOverride(db, inp);
    TurnIsDispatch(db, cfg, inp);
    var s := SessionOf(db, inp);
    var db1 := Loaded(db, inp);
    CheckoutWord(db1, cfg, inp, s);
    ConfirmInReady(db1, inp, s);
    ConfirmStep(db1, inp, s);
  }

  lemma ConfirmInReady(db: Db, inp: Input, s: Session)
    requires s.state == Ready && Text(inp) == "confirmar"
    ensures Backend.CheckoutEffect(db, inp, s) == Backend.ConfirmEffect(db, inp, s)
  {
    CheckoutWordFacts(Text(inp));
  }

  lemma ConfirmStep(db: Db, inp: Input, s: Session)
    requires HasDefaultCompany(db.companies) && OrderId(inp) !in db.orders
    ensures var e := Backend.ConfirmEffect(db, inp, s);
      var c := Backend.CompanyOf(db, s).value;
      var id := OrderId(inp);
      && e.db.orders.Keys == db.orders.Keys + {id}
      && (forall k :: k in db.orders ==> e.db.orders[k] == db.orders[k])
      && e.db.orders[id].items == s.cart
      && e.db.orders[id].itemsDetailed == Lines(c.catalog, s.cart, false)
      && e.db.orders[id].total == SumSubtotals(e.db.orders[id].itemsDetailed)
      && e.db.orders[id].companyId == c.id
      && e.db.orders[id].paymentStatus == "pending" && e.db.orders[id].orderStatus == "confirmed"
      && s.fromNumber in e.db.sessions
      && e.db.sessions[s.fromNumber] == ToRow(s.(cart := [], state := Menu, lastOrderId := Some(id)))
      && e.reply == Some(ConfirmedReply(id, e.db.orders[id].total))
  {
    TotalIsItemSum(Backend.CompanyOf(db, s).value.catalog, s.cart, false);
  }

  /** "confirmar" outside READY inserts no order. */
  lemma ConfirmOnlyInReady(db: Db, cfg: Config, inp: Input)
    requires Text(inp) == "confirmar" && SessionOf(db, inp).state != Ready
    ensures Backend.TurnEffect(db, cfg, inp).db.orders == db.orders
  {
    PrologueWrites(db, inp);
    TurnIsDispatch(db, cfg, inp);
    var s := SessionOf(db, inp);
    CheckoutWordIsNoCommand(inp);
    CheckoutWordFacts(Text(inp));
    if s.state != Human {
      CheckoutWord(Loaded(db, inp), cfg, inp, s);
      ConfirmOutsideReady(Loaded(db, inp), inp, s);
    } else {
      RouteHumanWait(Loaded(db, inp), cfg, inp, s);
    }
  }

  lemma ConfirmOutsideReady(db: Db, inp: Input, s: Session)
    requires Text(inp) == "confirmar" && s.state != Ready
    ensures Backend.CheckoutEffect(db, inp, s).db.orders == db.orders
  {
    CheckoutWordFacts(Text(inp));
  }

  // The AI branch.

  /**
    In MENU, for a customer enrolled in "lite" or "pro" (in any letter
    case), a message that is no reserved word, admin command or "agregar n"
    goes to the AI branch.
   */
  lemma RouteAi(db: Db, cfg: Config, inp: Input, s: Session)
    requires s.state == Menu && Enrolled(s.data.aiMode, true)
    requires !IsReserved(Text(inp)) && !IsAdminCommand(inp) && ParseAdd(Text(inp)).None?
    ensures Backend.DispatchEffect(db, cfg, inp, s) == Backend.AiEffect(db, cfg, inp, s)
  {
    UnreservedIsNoWord(Text(inp));
  }

  /** The message the AI branch would take, for the session the turn loads. */
  predicate AiCandidate(db: Db, inp: Input) {
    var s := SessionOf(db, inp);
    && s.state == Menu && Enrolled(s.data.aiMode, true)
    && !IsReserved(Text(inp)) && !IsAdminCommand(inp) && ParseAdd(Text(inp)).None?
  }

  /** Without the client, or with AI switched off globally, the reply says so and nothing is saved. */
  lemma AiUnavailableSavesNothing(db: Db, cfg: Config, inp: Input)
    requires AiCandidate(db, inp) && !AiEnabled(cfg)
    ensures Backend.TurnEffect(db, cfg, inp) == Reply(Loaded(db, inp), AiUnavailable)
  {
    TurnIsDispatch(db, cfg, inp);
    RouteAi(Loaded(db, inp), cfg, inp, SessionOf(db, inp));
  }

  /**
    Once the day's count (after the rollover to today) has reached the limit
    of the mode, the model is not asked, the limit notice is the reply and
    nothing is saved.
   */
  lemma AiLimitStopsTheModel(db: Db, cfg: Config, inp: Input)
    requires AiCandidate(db, inp) && AiEnabled(cfg)
    requires Rollover(SessionOf(db, inp).data, Today(inp)).aiCount >= DailyLimit(SessionOf(db, inp).data.aiMode, true)
    ensures Backend.TurnEffect(db, cfg, inp) == Reply(Loaded(db, inp), AiLimitReached)
  {
    TurnIsDispatch(db, cfg, inp);
    RouteAi(Loaded(db, inp), cfg, inp, SessionOf(db, inp));
  }

  /**
    A call to the model is counted exactly once: once the model answers, the
    session is saved with today's date and the count one past the
    rolled-over count, and nothing else in it changes. A non-empty (trimmed)
    answer is the reply; an empty one falls through to the default reply. A
    rejected call throws with nothing past the prologue saved.
   */
  lemma AiCallCountsOnce(db: Db, cfg: Config, inp: Input)
    requires AiCandidate(db, inp) && HasDefaultCompany(db.companies)
    requires Decide(cfg, SessionOf(db, inp).data, Today(inp), true).Granted?
    ensures var e := Backend.TurnEffect(db, cfg, inp);
      var s := SessionOf(db, inp);
      var d := Decide(cfg, s.data, Today(inp), true).after;
      && e.modelCalled
      && d == s.data.(aiCountDate := Today(inp), aiCount := d.aiCount)
      && d.aiCount == (if s.data.aiCountDate == Today(inp) then s.data.aiCount else 0) + 1
      && (inp.aiAnswer.None? ==> e.db == Loaded(db, inp) && e.reply.None?)
      && (inp.aiAnswer.Some? ==> e.db == SaveTo(Loaded(db, inp), s.(data := d)))
      && (inp.aiAnswer.Some? && Trim(inp.aiAnswer.value) != "" ==> e.reply == Some(Trim(inp.aiAnswer.value)))
      && (inp.aiAnswer.Some? && Trim(inp.aiAnswer.value) == "" ==> e.reply == Some(DefaultReply))
  {
    var s := SessionOf(db, inp);
    PrologueWrites(db, inp);
    TurnIsDispatch(db, cfg, inp);
    RouteAi(Loaded(db, inp), cfg, inp, s);
    GrantedCountsTheCall(cfg, s.data, Today(inp), true);
    AiGranted(Loaded(db, inp), cfg, inp, s);
  }

  lemma AiGranted(db: Db, cfg: Config, inp: Input, s: Session)
    requires s.state == Menu && !IsReserved(Text(inp)) && HasDefaultCompany(db.companies)
    requires Decide(cfg, s.data, Today(inp), true).Granted?
    ensures var e := Backend.AiEffect(db, cfg, inp, s);
      var s1 := s.(data := Decide(cfg, s.data, Today(inp), true).after);
      && e.modelCalled
      && (inp.aiAnswer.None? ==> e == Effect(db, None, true))
      && (inp.aiAnswer.Some? ==> e.db == SaveTo(db, s1))
      && (inp.aiAnswer.Some? && Trim(inp.aiAnswer.value) != "" ==> e.reply == Some(Trim(inp.aiAnswer.value)))
      && (inp.aiAnswer.Some? && Trim(inp.aiAnswer.value) == "" ==> e.reply == Some(DefaultReply))
  {
    var s1 := s.(data := Decide(cfg, s.data, Today(inp), true).after);
    AiGrantedSaves(db, cfg, inp, s);
    if inp.aiAnswer.Some? && Trim(inp.aiAnswer.value) == "" {
      FallThroughToDefault(SaveTo(db, s1), inp, s1);
      SaveTwice(db, s1);
    }
  }

  lemma AiGrantedSaves(db: Db, cfg: Config, inp: Input, s: Session)
    requires HasDefaultCompany(db.companies) && Decide(cfg, s.data, Today(inp), true).Granted?
    ensures var s1 := s.(data := Decide(cfg, s.data, Today(inp), true).after);
      Backend.AiEffect(db, cfg, inp, s)
        == match inp.aiAnswer
           case None => Effect(db, None, true)
           case Some(output) =>
             if Trim(output) != "" then Effect(SaveTo(db, s1), Some(Trim(output)), true)
             else Backend.CheckoutEffect(SaveTo(db, s1), inp, s1).(modelCalled := true)
  {
    CompanyFound(db, s);
  }

  /** In MENU, a message that is no reserved word gets the default reply and the session saved as it is. */
  lemma FallThroughToDefault(db: Db, inp: Input, s: Session)
    requires s.state == Menu && !IsReserved(Text(inp))
    ensures Backend.CheckoutEffect(db, inp, s) == Reply(SaveTo(db, s), DefaultReply)
  {
    UnreservedIsNoWord(Text(inp));
  }

  /**
    The model is asked only from the AI branch: in MENU, for an enrolled
    customer, a message that is no reserved word or command, AI available
    and the day's limit not reached.
   */
  lemma ModelOnlyBehindGate(db: Db, cfg: Config, inp: Input)
    ensures Backend.TurnEffect(db, cfg, inp).modelCalled ==>
      AiCandidate(db, inp) && Decide(cfg, SessionOf(db, inp).data, Today(inp), true).Granted?
  {
    TurnIsDispatch(db, cfg, inp);
    var s := SessionOf(db, inp);
    var db1 := Loaded(db, inp);
    DispatchModel(db1, cfg, inp, s);
  }

  lemma DispatchModel(db: Db, cfg: Config, inp: Input, s: Session)
    ensures Backend.DispatchEffect(db, cfg, inp, s).modelCalled ==> ModelGate(cfg, inp, s)
  {
    if IsHumanTrigger(Text(inp)) {
      RouteTrigger(db, cfg, inp, s);
    } else if IsAdminCommand(inp) {
      AdminNoModelTurn(db, cfg, inp, s);
    } else {
      ModelPastAdmin(db, cfg, inp, s);
    }
  }

  /** The conditions under which the AI branch asks the model. */
  predicate ModelGate(cfg: Config, inp: Input, s: Session) {
    && s.state == Menu && Enrolled(s.data.aiMode, true)
    && !IsReserved(Text(inp)) && !IsAdminCommand(inp) && ParseAdd(Text(inp)).None?
    && Decide(cfg, s.data, Today(inp), true).Granted?
  }

  lemma ModelPastAdmin(db: Db, cfg: Config, inp: Input, s: Session)
    requires !IsHumanTrigger(Text(inp)) && !IsAdminCommand(inp)
    ensures Backend.DispatchEffect(db, cfg, inp, s).modelCalled ==> ModelGate(cfg, inp, s)
  {
    var t := Text(inp);
    if t == "menu" || t == "hola" {
      MenuNoModelTurn(db, cfg, inp, s);
    } else if s.state == Human {
      RouteHumanWait(db, cfg, inp, s);
    } else {
      ModelPastHuman(db, cfg, inp, s);
    }
  }

  lemma ModelPastHuman(db: Db, cfg: Config, inp: Input, s: Session)
    requires !IsHumanTrigger(Text(inp)) && !IsAdminCommand(inp) && s.state != Human
    ensures Backend.DispatchEffect(db, cfg, inp, s).modelCalled ==> ModelGate(cfg, inp, s)
  {
    var t := Text(inp);
    if t == "catalogo" || t == "carrito" {
      RouteView(db, cfg, inp, s);
    } else if ParseAdd(t).Some? {
      AddNoModelTurn(db, cfg, inp, s);
    } else if t == "menu" || t == "hola" {
      MenuNoModelTurn(db, cfg, inp, s);
    } else if Enrolled(s.data.aiMode, true) && s.state == Menu && !IsReserved(t) {
      RouteAi(db, cfg, inp, s);
      AiModel(db, cfg, inp, s);
    } else {
      ReachesCheckout(db, cfg, inp, s);
      CheckoutNoModel(db, inp, s);
    }
  }

  lemma AdminNoModelTurn(db: Db, cfg: Config, inp: Input, s: Session)
    requires IsAdminCommand(inp)
    ensures !Backend.DispatchEffect(db, cfg, inp, s).modelCalled
  {
    AdminReachesGate(db, cfg, inp, s);
  }

  lemma MenuNoModelTurn(db: Db, cfg: Config, inp: Input, s: Session)
    requires Text(inp) == "menu" || Text(inp) == "hola"
    ensures !Backend.DispatchEffect(db, cfg, inp, s).modelCalled
  {
    MenuWord(db, cfg, inp, s);
  }

  lemma AddNoModelTurn(db: Db, cfg: Config, inp: Input, s: Session)
    requires s.state != Human && ParseAdd(Text(inp)).Some?
    ensures !Backend.DispatchEffect(db, cfg, inp, s).modelCalled
  {
    RouteAdd(db, cfg, inp, s, ParseAdd(Text(inp)).value);
  }

  lemma RouteHumanWait(db: Db, cfg: Config, inp: Input, s: Session)
    requires s.state == Human && !IsAdminCommand(inp) && !IsHumanTrigger(Text(inp))
    requires Text(inp) != "menu" && Text(inp) != "hola"
    ensures Backend.DispatchEffect(db, cfg, inp, s) == Reply(db, Backend.HumanWait)
  {
  }

  /** "agregar n" outside HUMAN goes to the cart. */
  lemma RouteAdd(db: Db, cfg: Config, inp: Input, s: Session, n: nat)
    requires ParseAdd(Text(inp)) == Some(n) && s.state != Human
    ensures Backend.DispatchEffect(db, cfg, inp, s) == Backend.AddEffect(db, s, n)
  {
    AddIsNoCommand(inp, n);
    AddIsNoWord(Text(inp), n);
  }

  lemma AiModel(db: Db, cfg: Config, inp: Input, s: Session)
    ensures Backend.AiEffect(db, cfg, inp, s).modelCalled ==> Decide(cfg, s.data, Today(inp), true).Granted?
  {
  }

  lemma CheckoutNoModel(db: Db, inp: Input, s: Session)
    ensures !Backend.CheckoutEffect(db, inp, s).modelCalled
  {
  }

  /**
    backend/index.js no longer reserves "agregar": in MENU, for an enrolled
    customer, a bare "agregar" goes to the AI branch (index.js sends it to
    the default reply).
   */
  lemma AgregarReachesAi(db: Db, cfg: Config, inp: Input, s: Session)
    requires Text(inp) == "agregar" && s.state == Menu && Enrolled(s.data.aiMode, true)
    ensures Backend.DispatchEffect(db, cfg, inp, s) == Backend.AiEffect(db, cfg, inp, s)
  {
    BareAgregar(inp);
    RouteAi(db, cfg, inp, s);
  }
}
