/**
  What one turn of the index.js handler does, stated about
  `Legacy.TurnEffect` (which `Legacy.HandleTurn` is proved to carry out on
  the store): sessions taken as stored, a HUMAN state that is never left,
  the admin gate and "company set", checkout questions that take any text,
  confirmation with its strict pricing, and the AI branch, which "agregar"
  never reaches.
 */
module LegacyProps {
  import opened Options
  import opened Strings
  import opened Tables
  import opened Commands
  import opened Cart
  import opened Governor
  import opened Webhook
  import opened Words
  import Legacy

  /** The store once the prologue has run (the last customer remembered). */
  function Loaded(db: Db, inp: Input): Db {
    Legacy.PrologueEffect(db, inp).0
  }

  /** The session the branches see. */
  function SessionOf(db: Db, inp: Input): Session {
    Legacy.PrologueEffect(db, inp).1
  }

  lemma TurnIsDispatch(db: Db, cfg: Config, inp: Input)
    ensures Legacy.TurnEffect(db, cfg, inp) == Legacy.DispatchEffect(Loaded(db, inp), cfg, inp, SessionOf(db, inp))
  {
  }

  /** The prologue only writes `last_customer`, and only for a message that is no admin command. */
  lemma PrologueWrites(db: Db, inp: Input)
    ensures var db1 := Loaded(db, inp);
      && db1.sessions == db.sessions && db1.companies == db.companies && db1.orders == db.orders
      && db1.customerCompany == db.customerCompany && db1.outbox == db.outbox
      && (IsAdminCommand(inp) ==> db1 == db)
      && (!IsAdminCommand(inp) ==> db1.settings == db.settings[LastCustomerKey := From(inp)])
    ensures SessionOf(db, inp) == Legacy.GetSession(db.sessions, From(inp))
  {
    var db0 := RememberCustomer(db, inp);
    assert Loaded(db, inp) == db0 && db0.sessions == db.sessions;
  }

  // Sessions.

  /**
    A saved session reads back exactly as it was saved, whatever its state
    and order id: index.js takes the stored row as it is (backend/index.js
    instead reads an empty state as MENU and an empty order id as none).
   */
  lemma SessionRoundTrip(sessions: map<string, SessionRow>, s: Session)
    ensures Legacy.GetSession(Save(sessions, s), s.fromNumber) == s
  {
    DataRoundTrip(s.data);
  }

  /** A stored empty state stays empty: no branch of index.js turns it into MENU when loading. */
  lemma EmptyStateKept(sessions: map<string, SessionRow>, from: string)
    requires from in sessions && sessions[from].state == ""
    ensures Legacy.GetSession(sessions, from).state == "" != Menu
  {
  }

  // Routing: which branch a message reaches.

  lemma RouteTrigger(db: Db, cfg: Config, inp: Input, s: Session)
    requires IsHumanTrigger(Text(inp))
    ensures Legacy.DispatchEffect(db, cfg, inp, s)
      == Reply(SaveTo(db, s.(state := Human, data := s.data.(humanNotified := true))), Legacy.HumanAck)
  {
  }

  lemma RouteHumanWait(db: Db, cfg: Config, inp: Input, s: Session)
    requires s.state == Human && !IsAdminCommand(inp) && !IsHumanTrigger(Text(inp))
    ensures Legacy.DispatchEffect(db, cfg, inp, s) == Reply(db, Legacy.HumanWait)
  {
  }

  lemma AdminReachesGate(db: Db, cfg: Config, inp: Input, s: Session)
    requires IsAdminCommand(inp)
    ensures Legacy.DispatchEffect(db, cfg, inp, s) == Legacy.AdminEffect(db, cfg, inp)
  {
    AdminIsNoWord(inp);
  }

  lemma MenuWord(db: Db, cfg: Config, inp: Input, s: Session)
    requires Text(inp) == "menu" || Text(inp) == "hola"
    requires s.state != Human
    ensures Legacy.DispatchEffect(db, cfg, inp, s) == Legacy.MenuEffect(db, s)
  {
    NotAdminWord(inp);
  }

  lemma RouteView(db: Db, cfg: Config, inp: Input, s: Session)
    requires Text(inp) == "catalogo" || Text(inp) == "carrito"
    requires s.state != Human
    ensures Legacy.DispatchEffect(db, cfg, inp, s).db == db
    ensures !Legacy.DispatchEffect(db, cfg, inp, s).modelCalled
  {
    if Text(inp) == "catalogo" {
      RouteCatalogo(db, cfg, inp, s);
    } else {
      RouteCarrito(db, cfg, inp, s);
    }
  }

  lemma RouteCatalogo(db: Db, cfg: Config, inp: Input, s: Session)
    requires Text(inp) == "catalogo" && s.state != Human
    ensures Legacy.DispatchEffect(db, cfg, inp, s) == CatalogEffect(db, Legacy.CompanyOf(db, s))
  {
    ViewWordIsNoCommand(inp);
  }

  lemma RouteCarrito(db: Db, cfg: Config, inp: Input, s: Session)
    requires Text(inp) == "carrito" && s.state != Human
    ensures Legacy.DispatchEffect(db, cfg, inp, s) == Effect(db, CartView(Legacy.CompanyOf(db, s), s.cart, true), false)
  {
    ViewWordIsNoCommand(inp);
  }

  lemma RouteAdd(db: Db, cfg: Config, inp: Input, s: Session, n: nat)
    requires ParseAdd(Text(inp)) == Some(n) && s.state != Human
    ensures Legacy.DispatchEffect(db, cfg, inp, s) == Legacy.AddEffect(db, s, n)
  {
    AddIsNoCommand(inp, n);
    AddIsNoWord(Text(inp), n);
  }

  lemma RouteAi(db: Db, cfg: Config, inp: Input, s: Session)
    requires s.state == Menu && Enrolled(s.data.aiMode, false)
    requires !IsReservedLegacy(Text(inp)) && !IsAdminCommand(inp) && ParseAdd(Text(inp)).None?
    ensures Legacy.DispatchEffect(db, cfg, inp, s) == Legacy.AiEffect(db, cfg, inp, s)
  {
    ReservedListsDiffer(Text(inp));
    UnreservedIsNoWord(Text(inp));
  }

  lemma ReachesCheckout(db: Db, cfg: Config, inp: Input, s: Session)
    requires s.state != Human && !IsAdminCommand(inp) && ParseAdd(Text(inp)).None?
    requires !IsHumanTrigger(Text(inp)) && Text(inp) != "menu" && Text(inp) != "hola" && Text(inp) != "catalogo" && Text(inp) != "carrito"
    requires !(Enrolled(s.data.aiMode, false) && s.state == Menu && !IsReservedLegacy(Text(inp)))
    ensures Legacy.DispatchEffect(db, cfg, inp, s) == Legacy.CheckoutEffect(db, inp, s)
  {
  }

  /** A reserved word outside HUMAN that is no trigger and none of the view words goes to the checkout steps. */
  lemma ReservedReachesCheckout(db: Db, cfg: Config, inp: Input, s: Session)
    requires s.state != Human && IsReserved(Text(inp)) && !IsHumanTrigger(Text(inp))
    requires Text(inp) != "menu" && Text(inp) != "hola" && Text(inp) != "catalogo" && Text(inp) != "carrito"
    ensures Legacy.DispatchEffect(db, cfg, inp, s) == Legacy.CheckoutEffect(db, inp, s)
  {
    ReservedIsNoCommand(inp);
    ReservedListsDiffer(Text(inp));
    ReachesCheckout(db, cfg, inp, s);
  }

  // HUMAN cannot be left.

  /** Every row in HUMAN before is still there, and still in HUMAN, after. */
  predicate KeepsHuman(before: map<string, SessionRow>, after: map<string, SessionRow>) {
    forall k :: k in before && before[k].state == Human ==> k in after && after[k].state == Human
  }

  /** "admin company set" and "admin ai set" load the target's row as stored and write its state back unchanged. */
  lemma AdminKeepsHuman(db: Db, cfg: Config, inp: Input)
    ensures KeepsHuman(db.sessions, Legacy.AdminEffect(db, cfg, inp).db.sessions)
  {
    var cmd := Cmd(inp);
    if IsAdminLegacy(cfg.adminNumber, From(inp)) && cmd != "admin whoami" && cmd != "admin company list" {
      CommandKeepsHuman(db, cfg, inp);
    }
  }

  lemma CommandKeepsHuman(db: Db, cfg: Config, inp: Input)
    requires IsAdminLegacy(cfg.adminNumber, From(inp)) && Cmd(inp) != "admin whoami" && Cmd(inp) != "admin company list"
    ensures KeepsHuman(db.sessions, Legacy.AdminEffect(db, cfg, inp).db.sessions)
  {
    var cmd := Cmd(inp);
    if ParseCompanySet(cmd).Some? {
      CompanySetKeepsHuman(db, ParseCompanySet(cmd).value.0, ParseCompanySet(cmd).value.1);
    } else if ParseAiSet(cmd).Some? {
      AiSetKeepsHuman(db, ParseAiSet(cmd).value.0, ParseAiSet(cmd).value.1);
    }
  }

  lemma CompanySetKeepsHuman(db: Db, rawId: string, arg: string)
    ensures KeepsHuman(db.sessions, Legacy.CompanySetEffect(db, rawId, arg).db.sessions)
  {
    var t := Legacy.TargetOf(db, Trim(arg));
    if FindCompany(db.companies, Lower(rawId)).Some? && t != "" {
      var s2 := Legacy.GetSession(db.sessions, NormalizeTarget(t));
      SaveOnly(db.sessions, s2.(data := s2.data.(companyId := Lower(rawId))));
    }
  }

  lemma AiSetKeepsHuman(db: Db, mode: string, arg: string)
    ensures KeepsHuman(db.sessions, Legacy.AiSetEffect(db, mode, arg).db.sessions)
  {
    var t := Legacy.TargetOf(db, arg);
    if t != "" {
      var s2 := Legacy.GetSession(db.sessions, NormalizeTargetLegacy(t));
      SaveOnly(db.sessions, s2.(data := s2.data.(aiMode := mode)));
    }
  }

  lemma MenuOnly(db: Db, s: Session)
    ensures OnlyRow(db.sessions, Legacy.MenuEffect(db, s).db.sessions, s.fromNumber)
  {
    SaveOnly(db.sessions, s.(state := Menu, data := s.data.(humanNotified := false)));
  }

  lemma AddOnly(db: Db, s: Session, id: nat)
    ensures OnlyRow(db.sessions, Legacy.AddEffect(db, s, id).db.sessions, s.fromNumber)
  {
    SaveOnly(db.sessions, s.(cart := s.cart + [id]));
  }

  lemma ConfirmOnly(db: Db, inp: Input, s: Session)
    ensures OnlyRow(db.sessions, Legacy.ConfirmEffect(db, inp, s).db.sessions, s.fromNumber)
  {
    SaveOnly(db.sessions, s.(cart := [], state := Menu, lastOrderId := Some(OrderId(inp))));
  }

  lemma CheckoutOnly(db: Db, inp: Input, s: Session)
    ensures OnlyRow(db.sessions, Legacy.CheckoutEffect(db, inp, s).db.sessions, s.fromNumber)
  {
    if Text(inp) == "checkout" {
      SaveOnly(db.sessions, s.(state := AskName));
    } else if s.state == AskName {
      SaveOnly(db.sessions, s.(state := AskContact, data := s.data.(name := Some(Body(inp)))));
    } else {
      OnlyPastName(db, inp, s);
    }
  }

  lemma OnlyPastName(db: Db, inp: Input, s: Session)
    requires Text(inp) != "checkout" && s.state != AskName
    ensures OnlyRow(db.sessions, Legacy.CheckoutEffect(db, inp, s).db.sessions, s.fromNumber)
  {
    if s.state == AskContact {
      SaveOnly(db.sessions, s.(state := Ready, data := s.data.(contact := Some(Body(inp)))));
    } else if Text(inp) == "confirmar" && s.state == Ready {
      ConfirmOnly(db, inp, s);
    } else {
      SaveOnly(db.sessions, s);
    }
  }

  /** What the AI branch leaves in the store: nothing, the counted call, or that and a later branch's changes. */
  lemma AiStores(db: Db, cfg: Config, inp: Input, s: Session)
    ensures var e := Legacy.AiEffect(db, cfg, inp, s);
      match Decide(cfg, s.data, Today(inp), false)
      case Granted(d) =>
        e.db == db || e.db == SaveTo(db, s.(data := d)) || e.db == Legacy.CheckoutEffect(SaveTo(db, s.(data := d)), inp, s.(data := d)).db
      case _ => e.db == db
  {
    match Decide(cfg, s.data, Today(inp), false)
    case Granted(d) =>
      var e := Legacy.AiEffect(db, cfg, inp, s);
      var s1 := s.(data := d);
      if Legacy.CompanyOf(db, s).None? || inp.aiAnswer.None? {
        assert e.db == db;
      } else if inp.aiAnswer.value != "" {
        assert e.db == SaveTo(db, s1);
      } else {
        assert e.db == Legacy.CheckoutEffect(SaveTo(db, s1), inp, s1).db;
      }
    case _ =>
  }

  lemma AiOnly(db: Db, cfg: Config, inp: Input, s: Session)
    ensures OnlyRow(db.sessions, Legacy.AiEffect(db, cfg, inp, s).db.sessions, s.fromNumber)
  {
    AiStores(db, cfg, inp, s);
    match Decide(cfg, s.data, Today(inp), false)
    case Unavailable =>
    case Exhausted =>
    case Granted(d) =>
      var s1 := s.(data := d);
      SaveOnly(db.sessions, s1);
      CheckoutOnly(SaveTo(db, s1), inp, s1);
  }

  /** A customer's own message (no admin command) writes no session row but the customer's own. */
  lemma OwnRowOnly(db: Db, cfg: Config, inp: Input, s: Session)
    requires !IsAdminCommand(inp)
    ensures OnlyRow(db.sessions, Legacy.DispatchEffect(db, cfg, inp, s).db.sessions, s.fromNumber)
  {
    var t := Text(inp);
    if IsHumanTrigger(t) {
      RouteTrigger(db, cfg, inp, s);
      SaveOnly(db.sessions, s.(state := Human, data := s.data.(humanNotified := true)));
    } else if s.state == Human {
      RouteHumanWait(db, cfg, inp, s);
    } else if t == "menu" || t == "hola" {
      MenuWord(db, cfg, inp, s);
      MenuOnly(db, s);
    } else {
      OwnRowPastMenu(db, cfg, inp, s);
    }
  }

  lemma OwnRowPastMenu(db: Db, cfg: Config, inp: Input, s: Session)
    requires !IsAdminCommand(inp) && !IsHumanTrigger(Text(inp)) && s.state != Human
    requires Text(inp) != "menu" && Text(inp) != "hola"
    ensures OnlyRow(db.sessions, Legacy.DispatchEffect(db, cfg, inp, s).db.sessions, s.fromNumber)
  {
    var t := Text(inp);
    if t == "catalogo" || t == "carrito" {
      RouteView(db, cfg, inp, s);
    } else if ParseAdd(t).Some? {
      OwnRowAdd(db, cfg, inp, s);
    } else {
      OwnRowPastAdd(db, cfg, inp, s);
    }
  }

  lemma OwnRowPastAdd(db: Db, cfg: Config, inp: Input, s: Session)
    requires !IsAdminCommand(inp) && !IsHumanTrigger(Text(inp)) && s.state != Human
    requires Text(inp) != "menu" && Text(inp) != "hola" && Text(inp) != "catalogo" && Text(inp) != "carrito" && ParseAdd(Text(inp)).None?
    ensures OnlyRow(db.sessions, Legacy.DispatchEffect(db, cfg, inp, s).db.sessions, s.fromNumber)
  {
    if Enrolled(s.data.aiMode, false) && s.state == Menu && !IsReservedLegacy(Text(inp)) {
      RouteAi(db, cfg, inp, s);
      AiOnly(db, cfg, inp, s);
    } else {
      ReachesCheckout(db, cfg, inp, s);
      CheckoutOnly(db, inp, s);
    }
  }

  lemma OwnRowAdd(db: Db, cfg: Config, inp: Input, s: Session)
    requires s.state != Human && ParseAdd(Text(inp)).Some?
    ensures OnlyRow(db.sessions, Legacy.DispatchEffect(db, cfg, inp, s).db.sessions, s.fromNumber)
  {
    RouteAdd(db, cfg, inp, s, ParseAdd(Text(inp)).value);
    AddOnly(db, s, ParseAdd(Text(inp)).value);
  }

  /**
    In index.js HUMAN is never left: whatever message arrives and whoever
    sends it, every session row in HUMAN before the turn is in HUMAN after
    it. A customer in HUMAN gets the waiting reply to everything but an admin
    command (and a trigger, which keeps HUMAN); the admin commands load their
    target's row as stored and write its state back unchanged; any other
    message writes its sender's row only.
   */
  lemma HumanIsNeverLeft(db: Db, cfg: Config, inp: Input)
    ensures KeepsHuman(db.sessions, Legacy.TurnEffect(db, cfg, inp).db.sessions)
  {
    TurnIsDispatch(db, cfg, inp);
    PrologueWrites(db, inp);
    var db1 := Loaded(db, inp);
    var s := SessionOf(db, inp);
    if IsAdminCommand(inp) {
      AdminReachesGate(db1, cfg, inp, s);
      AdminKeepsHuman(db1, cfg, inp);
    } else {
      CustomerKeepsHuman(db1, cfg, inp, s);
    }
  }

  /** A message that is no admin command writes its sender's row only, and into HUMAN if anything. */
  lemma CustomerKeepsHuman(db: Db, cfg: Config, inp: Input, s: Session)
    requires !IsAdminCommand(inp) && s == Legacy.GetSession(db.sessions, s.fromNumber)
    ensures KeepsHuman(db.sessions, Legacy.DispatchEffect(db, cfg, inp, s).db.sessions)
  {
    var after := Legacy.DispatchEffect(db, cfg, inp, s).db.sessions;
    var k := s.fromNumber;
    OwnRowOnly(db, cfg, inp, s);
    if IsHumanTrigger(Text(inp)) {
      RouteTrigger(db, cfg, inp, s);
      assert after[k] == ToRow(s.(state := Human, data := s.data.(humanNotified := true)));
    } else if s.state == Human {
      RouteHumanWait(db, cfg, inp, s);
    }
    RowsKeepHuman(db.sessions, after, k);
  }

  /** Writing one row, and that one into HUMAN if it was there, keeps every row that was in HUMAN. */
  lemma RowsKeepHuman(before: map<string, SessionRow>, after: map<string, SessionRow>, k: string)
    requires OnlyRow(before, after, k)
    requires k in before && before[k].state == Human ==> k in after && after[k].state == Human
    ensures KeepsHuman(before, after)
  {
  }

  /**
    A customer in HUMAN who sends anything but a trigger or an admin command
    (including "menu" and "hola") gets the waiting reply, and only
    `last_customer` is written.
   */
  lemma HumanWaitsForEverything(db: Db, cfg: Config, inp: Input)
    requires SessionOf(db, inp).state == Human
    requires !IsHumanTrigger(Text(inp)) && !IsAdminCommand(inp)
    ensures Legacy.TurnEffect(db, cfg, inp) == Reply(db.(settings := db.settings[LastCustomerKey := From(inp)]), Legacy.HumanWait)
  {
    PrologueWrites(db, inp);
  }

  /**
    A trigger puts the sender in HUMAN with `humanNotified` set and answers
    the acknowledgement; index.js notifies nobody, so the outbox is unchanged.
   */
  lemma TriggerNotifiesNobody(db: Db, cfg: Config, inp: Input)
    requires IsHumanTrigger(Text(inp))
    ensures var e := Legacy.TurnEffect(db, cfg, inp);
      var s := SessionOf(db, inp);
      && e.db == SaveTo(Loaded(db, inp), s.(state := Human, data := s.data.(humanNotified := true)))
      && e.db.outbox == db.outbox
      && e.reply == Some(Legacy.HumanAck)
  {
    PrologueWrites(db, inp);
  }

  // The admin gate.

  /** An admin command from anyone but `ADMIN_NUMBER` is refused, and nothing at all is written. */
  lemma NonAdminChangesNothing(db: Db, cfg: Config, inp: Input)
    requires IsAdminCommand(inp) && !IsAdminLegacy(cfg.adminNumber, From(inp))
    ensures Legacy.TurnEffect(db, cfg, inp) == Reply(db, Restricted)
  {
    PrologueWrites(db, inp);
    AdminReachesGate(db, cfg, inp, SessionOf(db, inp));
  }

  /**
    "admin company set <id> [target]" from the admin: an unknown company, or
    no target and no last customer, writes nothing; otherwise the target's
    session (loaded as stored) gets the company and keeps its state, cart,
    order id and the rest of its data bag, no other row changes, and there is
    no assignment table to write. Each case has its own answer.
   */
  lemma CompanySet(db: Db, cfg: Config, inp: Input, rawId: string, arg: string)
    requires IsAdminCommand(inp) && IsAdminLegacy(cfg.adminNumber, From(inp))
    requires ParseCompanySet(Cmd(inp)) == Some((rawId, arg))
    ensures var e := Legacy.TurnEffect(db, cfg, inp);
      var t := Legacy.TargetOf(db, Trim(arg));
      && e.db.customerCompany == db.customerCompany && e.db.orders == db.orders && e.db.settings == db.settings
      && (FindCompany(db.companies, Lower(rawId)).None? || t == "" ==> e.db == db)
      && (FindCompany(db.companies, Lower(rawId)).None? ==> e.reply == Some(CompanyMissingReply(Lower(rawId))))
      && (FindCompany(db.companies, Lower(rawId)).Some? && t == "" ==> e.reply == Some(NoLastCustomer))
      && (FindCompany(db.companies, Lower(rawId)).Some? && t != "" ==>
            var target := NormalizeTarget(t);
            var before := Legacy.GetSession(db.sessions, target);
            && OnlyRow(db.sessions, e.db.sessions, target)
            && Legacy.GetSession(e.db.sessions, target) == before.(data := before.data.(companyId := Lower(rawId)))
            && e.reply == Some(CompanySetReply(target, FindCompany(db.companies, Lower(rawId)).value)))
  {
    PrologueWrites(db, inp);
    AdminReachesGate(db, cfg, inp, SessionOf(db, inp));
    CompanySetIsNoOtherCommand(Cmd(inp));
    var t := Legacy.TargetOf(db, Trim(arg));
    if FindCompany(db.companies, Lower(rawId)).Some? && t != "" {
      var before := Legacy.GetSession(db.sessions, NormalizeTarget(t));
      var s2 := before.(data := before.data.(companyId := Lower(rawId)));
      SaveOnly(db.sessions, s2);
      SessionRoundTrip(db.sessions, s2);
    }
  }

  /**
    "admin ai set <mode> [target]": without a target (the capture as it is,
    untrimmed) and a last customer nothing is written; otherwise the
    target's session, with the first "+" dropped from its number, reads back
    with the mode as written and everything else it held, and no other row
    changes.
   */
  lemma AiSetWrites(db: Db, mode: string, arg: string)
    ensures var e := Legacy.AiSetEffect(db, mode, arg);
      var t := Legacy.TargetOf(db, arg);
      && e.db.customerCompany == db.customerCompany
      && (t == "" ==> e == Reply(db, NoActiveCustomer))
      && (t != "" ==>
            var target := NormalizeTargetLegacy(t);
            var before := Legacy.GetSession(db.sessions, target);
            && OnlyRow(db.sessions, e.db.sessions, target)
            && Legacy.GetSession(e.db.sessions, target) == before.(data := before.data.(aiMode := mode))
            && e.reply == Some(AiSetReply(mode, target)))
  {
    var t := Legacy.TargetOf(db, arg);
    if t != "" {
      var before := Legacy.GetSession(db.sessions, NormalizeTargetLegacy(t));
      var s2 := before.(data := before.data.(aiMode := mode));
      SaveOnly(db.sessions, s2);
      SessionRoundTrip(db.sessions, s2);
    }
  }

  /** "admin ai status" for the customer "admin ai set" just changed reports the mode that was set. */
  lemma AiStatusAfterSet(db: Db, mode: string, arg: string)
    requires Legacy.TargetOf(db, arg) != ""
    ensures var db1 := Legacy.AiSetEffect(db, mode, arg).db;
      Legacy.AiStatusEffect(db1, arg) == Reply(db1, AiStatusReply(mode))
  {
    AiSetWrites(db, mode, arg);
  }

  // Checkout and confirmation.

  /**
    "checkout" outside HUMAN: an empty cart answers "Carrito vacío." and
    leaves the state as it was; otherwise the session moves to ASK_NAME and
    the name is asked for.
   */
  lemma CheckoutStarts(db: Db, cfg: Config, inp: Input)
    requires Text(inp) == "checkout" && SessionOf(db, inp).state != Human
    ensures var e := Legacy.TurnEffect(db, cfg, inp);
      var s := SessionOf(db, inp);
      && (s.cart == [] ==> e == Reply(Loaded(db, inp), CheckoutEmpty))
      && (s.cart != [] ==> e == Reply(SaveTo(Loaded(db, inp), s.(state := AskName)), AskNamePrompt))
  {
    TurnIsDispatch(db, cfg, inp);
    CheckoutWordIsNoCommand(inp);
    CheckoutWordFacts(Text(inp));
    ReachesCheckout(Loaded(db, inp), cfg, inp, SessionOf(db, inp));
  }

  /**
    The checkout questions take any text that gets past the earlier
    branches, reserved words included: in ASK_NAME the (trimmed) message
    becomes the name and the session moves to ASK_CONTACT.
   */
  lemma NameTakesAnyText(db: Db, cfg: Config, inp: Input)
    requires SessionOf(db, inp).state == AskName && Text(inp) != "checkout"
    requires !IsHumanTrigger(Text(inp)) && !IsAdminCommand(inp) && ParseAdd(Text(inp)).None?
    requires Text(inp) != "menu" && Text(inp) != "hola" && Text(inp) != "catalogo" && Text(inp) != "carrito"
    ensures var s := SessionOf(db, inp);
      Legacy.TurnEffect(db, cfg, inp)
        == Reply(SaveTo(Loaded(db, inp), s.(state := AskContact, data := s.data.(name := Some(Body(inp))))), AskContactPrompt)
  {
    TurnIsDispatch(db, cfg, inp);
    ReachesCheckout(Loaded(db, inp), cfg, inp, SessionOf(db, inp));
  }

  /**
    In ASK_CONTACT any text that gets past the earlier branches becomes the
    contact and the session moves to READY; the summary renders the cart
    strictly, so the turn throws, after the save, exactly when the cart
    cannot be rendered.
   */
  lemma ContactStep(db: Db, cfg: Config, inp: Input)
    requires SessionOf(db, inp).state == AskContact && Text(inp) != "checkout"
    requires !IsHumanTrigger(Text(inp)) && !IsAdminCommand(inp) && ParseAdd(Text(inp)).None?
    requires Text(inp) != "menu" && Text(inp) != "hola" && Text(inp) != "catalogo" && Text(inp) != "carrito"
    ensures var s := SessionOf(db, inp);
      var e := Legacy.TurnEffect(db, cfg, inp);
      var summary := CartView(Legacy.CompanyOf(db, s), s.cart, true);
      && e.db == SaveTo(Loaded(db, inp), s.(state := Ready, data := s.data.(contact := Some(Body(inp)))))
      && (summary.None? ==> e.reply.None?)
      && (summary.Some? ==> e.reply == Some(SummaryReply(summary.value)))
  {
    TurnIsDispatch(db, cfg, inp);
    PrologueWrites(db, inp);
    ReachesCheckout(Loaded(db, inp), cfg, inp, SessionOf(db, inp));
  }

  /** So "confirmar" typed when the name is asked is taken for the name, and the session moves on to ASK_CONTACT. */
  lemma ConfirmarBecomesTheName(db: Db, cfg: Config, inp: Input)
    requires SessionOf(db, inp).state == AskName && Text(inp) == "confirmar"
    ensures var s := SessionOf(db, inp);
      Legacy.GetSession(Legacy.TurnEffect(db, cfg, inp).db.sessions, From(inp))
        == s.(state := AskContact, data := s.data.(name := Some(Body(inp))))
  {
    CheckoutWordIsNoCommand(inp);
    CheckoutWordIsNoAdd(Text(inp));
    NameTakesAnyText(db, cfg, inp);
    PrologueWrites(db, inp);
    var s := SessionOf(db, inp);
    SessionRoundTrip(db.sessions, s.(state := AskContact, data := s.data.(name := Some(Body(inp)))));
  }

  lemma ConfirmRoute(db: Db, cfg: Config, inp: Input)
    requires SessionOf(db, inp).state == Ready && Text(inp) == "confirmar"
    ensures Legacy.TurnEffect(db, cfg, inp) == Legacy.ConfirmEffect(Loaded(db, inp), inp, SessionOf(db, inp))
  {
    TurnIsDispatch(db, cfg, inp);
    CheckoutWordIsNoCommand(inp);
    CheckoutWordIsNoAdd(Text(inp));
    ReservedListsDiffer(Text(inp));
    ReachesCheckout(Loaded(db, inp), cfg, inp, SessionOf(db, inp));
  }

  /**
    "confirmar" in READY throws exactly when no company is found, some id in
    the cart is missing from the company's catalog, or the drawn order id is
    taken; otherwise it answers.
   */
  lemma ConfirmThrowsIff(db: Db, cfg: Config, inp: Input)
    requires SessionOf(db, inp).state == Ready && Text(inp) == "confirmar"
    ensures var s := SessionOf(db, inp);
      var c := Legacy.CompanyOf(db, s);
      Legacy.TurnEffect(db, cfg, inp).reply.None? <==>
        c.None? || !AllPriced(c.value.catalog, s.cart) || OrderId(inp) in db.orders
  {
    PrologueWrites(db, inp);
    ConfirmRoute(db, cfg, inp);
  }

  /**
    With a company found, every id in the cart in its catalog and the drawn
    order id new, "confirmar" inserts the order with the cart's items,
    their grouped lines, the sum of the subtotals as total and the session's
    name and contact as they are, "pending" and "confirmed"; the session is
    saved with an empty cart, in MENU, with the new order id, and its data
    bag unchanged.
   */
  lemma ConfirmPlacesOrder(db: Db, cfg: Config, inp: Input)
    requires SessionOf(db, inp).state == Ready && Text(inp) == "confirmar"
    requires var s := SessionOf(db, inp); var c := Legacy.CompanyOf(db, s);
      c.Some? && AllPriced(c.value.catalog, s.cart) && OrderId(inp) !in db.orders
    ensures var e := Legacy.TurnEffect(db, cfg, inp);
      var s := SessionOf(db, inp);
      var c := Legacy.CompanyOf(db, s).value;
      var id := OrderId(inp);
      && e.db.orders.Keys == db.orders.Keys + {id}
      && (forall k :: k in db.orders ==> e.db.orders[k] == db.orders[k])
      && e.db.orders[id].items == s.cart
      && e.db.orders[id].itemsDetailed == Lines(c.catalog, s.cart, true)
      && e.db.orders[id].total == SumSubtotals(e.db.orders[id].itemsDetailed)
      && e.db.orders[id].name == s.data.name && e.db.orders[id].contact == s.data.contact
      && e.db.orders[id].paymentStatus == "pending" && e.db.orders[id].orderStatus == "confirmed"
      && Legacy.GetSession(e.db.sessions, From(inp)) == s.(cart := [], state := Menu, lastOrderId := Some(id))
      && e.reply == Some(ConfirmedReply(id, e.db.orders[id].total))
  {
    PrologueWrites(db, inp);
    ConfirmRoute(db, cfg, inp);
    ConfirmStep(Loaded(db, inp), inp, SessionOf(db, inp));
  }

  /**
    "confirmar" places an order only in READY: in any other state it is an
    answer to a checkout question, the default reply or, in HUMAN, the
    waiting notice, and `orders` is left as it was.
   */
  lemma ConfirmOnlyInReady(db: Db, cfg: Config, inp: Input)
    requires Text(inp) == "confirmar" && SessionOf(db, inp).state != Ready
    ensures Legacy.TurnEffect(db, cfg, inp).db.orders == db.orders
  {
    PrologueWrites(db, inp);
    TurnIsDispatch(db, cfg, inp);
    var s := SessionOf(db, inp);
    CheckoutWordIsNoCommand(inp);
    CheckoutWordFacts(Text(inp));
    if s.state != Human {
      ReachesCheckout(Loaded(db, inp), cfg, inp, s);
      ConfirmOutsideReady(Loaded(db, inp), inp, s);
    } else {
      RouteHumanWait(Loaded(db, inp), cfg, inp, s);
    }
  }

  lemma ConfirmOutsideReady(db: Db, inp: Input, s: Session)
    requires Text(inp) == "confirmar" && s.state != Ready
    ensures Legacy.CheckoutEffect(db, inp, s).db.orders == db.orders
  {
    var e := Legacy.CheckoutEffect(db, inp, s);
    assert Text(inp) != "checkout" by {
      assert Text(inp)[1] != "checkout"[1];
    }
    if s.state == AskName {
      assert e.db == SaveTo(db, s.(state := AskContact, data := s.data.(name := Some(Body(inp)))));
    } else if s.state == AskContact {
      assert e.db == SaveTo(db, s.(state := Ready, data := s.data.(contact := Some(Body(inp)))));
    } else {
      assert e.db == SaveTo(db, s);
    }
  }

  lemma ConfirmStep(db: Db, inp: Input, s: Session)
    requires var c := Legacy.CompanyOf(db, s); c.Some? && AllPriced(c.value.catalog, s.cart) && OrderId(inp) !in db.orders
    ensures var e := Legacy.ConfirmEffect(db, inp, s);
      var c := Legacy.CompanyOf(db, s).value;
      var id := OrderId(inp);
      && e.db.orders.Keys == db.orders.Keys + {id}
      && (forall k :: k in db.orders ==> e.db.orders[k] == db.orders[k])
      && e.db.orders[id].items == s.cart
      && e.db.orders[id].itemsDetailed == Lines(c.catalog, s.cart, true)
      && e.db.orders[id].total == SumSubtotals(e.db.orders[id].itemsDetailed)
      && e.db.orders[id].name == s.data.name && e.db.orders[id].contact == s.data.contact
      && e.db.orders[id].paymentStatus == "pending" && e.db.orders[id].orderStatus == "confirmed"
      && Legacy.GetSession(e.db.sessions, s.fromNumber) == s.(cart := [], state := Menu, lastOrderId := Some(id))
      && e.reply == Some(ConfirmedReply(id, e.db.orders[id].total))
  {
    TotalIsItemSum(Legacy.CompanyOf(db, s).value.catalog, s.cart, true);
    SessionRoundTrip(db.sessions, s.(cart := [], state := Menu, lastOrderId := Some(OrderId(inp))));
  }

  // The cart, priced strictly.

  lemma PricedAppend(catalog: seq<Product>, cart: seq<nat>, n: nat)
    requires FindProduct(catalog, n).Some?
    ensures AllPriced(catalog, cart + [n]) <==> AllPriced(catalog, cart)
  {
    if AllPriced(catalog, cart + [n]) {
      forall i | 0 <= i < |cart| ensures FindProduct(catalog, cart[i]).Some? {
        assert (cart + [n])[i] == cart[i];
      }
    }
  }

  /**
    "agregar n" outside HUMAN: with no company it throws; an id missing from
    the catalog is refused and nothing is written; otherwise the session is
    saved with `n` appended to its cart and nothing else changed, and the
    reply, which renders the whole cart strictly, is sent only if every id
    already in the cart is in the catalog too.
   */
  lemma AddItem(db: Db, cfg: Config, inp: Input, n: nat)
    requires ParseAdd(Text(inp)) == Some(n) && SessionOf(db, inp).state != Human
    ensures var e := Legacy.TurnEffect(db, cfg, inp);
      var s := SessionOf(db, inp);
      var c := Legacy.CompanyOf(db, s);
      && (c.None? ==> e == Crash(Loaded(db, inp)))
      && (c.Some? && FindProduct(c.value.catalog, n).None? ==> e == Reply(Loaded(db, inp), UnknownProduct))
      && (c.Some? && FindProduct(c.value.catalog, n).Some? ==>
            && e.db == SaveTo(Loaded(db, inp), s.(cart := s.cart + [n]))
            && (e.reply.None? <==> !AllPriced(c.value.catalog, s.cart)))
  {
    TurnIsDispatch(db, cfg, inp);
    PrologueWrites(db, inp);
    var s := SessionOf(db, inp);
    RouteAdd(Loaded(db, inp), cfg, inp, s, n);
    var c := Legacy.CompanyOf(db, s);
    if c.Some? && FindProduct(c.value.catalog, n).Some? {
      PricedAppend(c.value.catalog, s.cart, n);
    }
  }

  /**
    "carrito" outside HUMAN writes nothing, and throws exactly when the cart
    is not empty and either no company is found or some id in the cart is
    missing from the company's catalog.
   */
  lemma CarritoThrowsIff(db: Db, cfg: Config, inp: Input)
    requires Text(inp) == "carrito" && SessionOf(db, inp).state != Human
    ensures var e := Legacy.TurnEffect(db, cfg, inp);
      var s := SessionOf(db, inp);
      var c := Legacy.CompanyOf(db, s);
      && e.db == Loaded(db, inp)
      && (e.reply.None? <==> s.cart != [] && (c.None? || !AllPriced(c.value.catalog, s.cart)))
  {
    TurnIsDispatch(db, cfg, inp);
    PrologueWrites(db, inp);
    RouteCarrito(Loaded(db, inp), cfg, inp, SessionOf(db, inp));
  }

  /**
    The cart keeps the ids of the company it was filled for. Once "admin
    company set" moves a customer to a company whose catalog lacks one of
    them, the customer's next "carrito" gets no reply at all.
   */
  lemma SwitchThenCarrito(db: Db, cfg: Config, adminInp: Input, inp: Input, rawId: string, arg: string, i: nat)
    requires IsAdminCommand(adminInp) && IsAdminLegacy(cfg.adminNumber, From(adminInp))
    requires ParseCompanySet(Cmd(adminInp)) == Some((rawId, arg))
    requires Legacy.TargetOf(db, Trim(arg)) != "" && NormalizeTarget(Legacy.TargetOf(db, Trim(arg))) == From(inp)
    requires FindCompany(db.companies, Lower(rawId)).Some?
    requires Text(inp) == "carrito" && !IsAdminCommand(inp)
    requires From(inp) in db.sessions && db.sessions[From(inp)].state != Human
    requires i < |db.sessions[From(inp)].cart|
    requires FindProduct(FindCompany(db.companies, Lower(rawId)).value.catalog, db.sessions[From(inp)].cart[i]).None?
    ensures Legacy.TurnEffect(Legacy.TurnEffect(db, cfg, adminInp).db, cfg, inp).reply.None?
  {
    CompanySet(db, cfg, adminInp, rawId, arg);
    var db1 := Legacy.TurnEffect(db, cfg, adminInp).db;
    PrologueWrites(db1, inp);
    CarritoThrowsIff(db1, cfg, inp);
    var c := Legacy.CompanyOf(db1, SessionOf(db1, inp));
    assert c == FindCompany(db.companies, Lower(rawId));
  }

  // The AI branch.

  /** Without the client, or with AI switched off globally, "IA no disponible." is the reply and nothing is saved. */
  lemma AiUnavailableSavesNothing(db: Db, cfg: Config, inp: Input)
    requires var s := SessionOf(db, inp);
      && s.state == Menu && Enrolled(s.data.aiMode, false)
      && !IsReservedLegacy(Text(inp)) && !IsAdminCommand(inp) && ParseAdd(Text(inp)).None?
    requires !AiEnabled(cfg)
    ensures Legacy.TurnEffect(db, cfg, inp) == Reply(Loaded(db, inp), AiUnavailable)
  {
    TurnIsDispatch(db, cfg, inp);
    RouteAi(Loaded(db, inp), cfg, inp, SessionOf(db, inp));
  }

  /**
    Once the day's count (after the rollover to today) has reached the limit
    of the mode as stored, the model is not asked, the limit notice is the
    reply and nothing is saved.
   */
  lemma AiLimitStopsTheModel(db: Db, cfg: Config, inp: Input)
    requires var s := SessionOf(db, inp);
      && s.state == Menu && Enrolled(s.data.aiMode, false)
      && !IsReservedLegacy(Text(inp)) && !IsAdminCommand(inp) && ParseAdd(Text(inp)).None?
    requires AiEnabled(cfg)
    requires Rollover(SessionOf(db, inp).data, Today(inp)).aiCount >= DailyLimit(SessionOf(db, inp).data.aiMode, false)
    ensures Legacy.TurnEffect(db, cfg, inp) == Reply(Loaded(db, inp), AiLimitReached)
  {
    TurnIsDispatch(db, cfg, inp);
    RouteAi(Loaded(db, inp), cfg, inp, SessionOf(db, inp));
  }

  /** The conditions under which the AI branch asks the model; the mode is compared as stored and "agregar" is reserved. */
  predicate ModelGate(cfg: Config, inp: Input, s: Session) {
    && s.state == Menu && Enrolled(s.data.aiMode, false)
    && !IsReservedLegacy(Text(inp)) && !IsAdminCommand(inp) && ParseAdd(Text(inp)).None?
    && Decide(cfg, s.data, Today(inp), false).Granted?
  }

  /** The model is asked only from the AI branch, with the quota granting the call. */
  lemma ModelOnlyBehindGate(db: Db, cfg: Config, inp: Input, s: Session)
    ensures Legacy.DispatchEffect(db, cfg, inp, s).modelCalled ==> ModelGate(cfg, inp, s)
  {
    if IsHumanTrigger(Text(inp)) {
      RouteTrigger(db, cfg, inp, s);
    } else if IsAdminCommand(inp) {
      AdminReachesGate(db, cfg, inp, s);
    } else if s.state == Human {
      RouteHumanWait(db, cfg, inp, s);
    } else {
      ModelPastHuman(db, cfg, inp, s);
    }
  }

  lemma ModelPastHuman(db: Db, cfg: Config, inp: Input, s: Session)
    requires !IsHumanTrigger(Text(inp)) && !IsAdminCommand(inp) && s.state != Human
    ensures Legacy.DispatchEffect(db, cfg, inp, s).modelCalled ==> ModelGate(cfg, inp, s)
  {
    var t := Text(inp);
    if t == "menu" || t == "hola" {
      MenuWord(db, cfg, inp, s);
    } else if t == "catalogo" || t == "carrito" {
      RouteView(db, cfg, inp, s);
    } else if ParseAdd(t).Some? {
      RouteAdd(db, cfg, inp, s, ParseAdd(t).value);
    } else {
      ModelPastAdd(db, cfg, inp, s);
    }
  }

  lemma ModelPastAdd(db: Db, cfg: Config, inp: Input, s: Session)
    requires !IsHumanTrigger(Text(inp)) && !IsAdminCommand(inp) && s.state != Human
    requires Text(inp) != "menu" && Text(inp) != "hola" && Text(inp) != "catalogo" && Text(inp) != "carrito" && ParseAdd(Text(inp)).None?
    ensures Legacy.DispatchEffect(db, cfg, inp, s).modelCalled ==> ModelGate(cfg, inp, s)
  {
    if Enrolled(s.data.aiMode, false) && s.state == Menu && !IsReservedLegacy(Text(inp)) {
      RouteAi(db, cfg, inp, s);
    } else {
      ReachesCheckout(db, cfg, inp, s);
    }
  }

  /** A bare "agregar" never reaches the model in index.js, whatever the session. */
  lemma AgregarNeverAsksTheModel(db: Db, cfg: Config, inp: Input, s: Session)
    requires Text(inp) == "agregar"
    ensures !Legacy.DispatchEffect(db, cfg, inp, s).modelCalled
  {
    ModelOnlyBehindGate(db, cfg, inp, s);
    ReservedListsDiffer(Text(inp));
  }

  /**
    With the call granted and answered, the count is saved one up and the
    model's answer is sent as it is, untrimmed; an empty answer falls through
    to the remaining branches. A rejected call throws with nothing past the
    prologue saved.
   */
  lemma AiCallCountsOnce(db: Db, cfg: Config, inp: Input)
    requires var s := SessionOf(db, inp);
      && s.state == Menu && Enrolled(s.data.aiMode, false)
      && !IsReservedLegacy(Text(inp)) && !IsAdminCommand(inp) && ParseAdd(Text(inp)).None?
    requires HasDefaultCompany(db.companies)
    requires Decide(cfg, SessionOf(db, inp).data, Today(inp), false).Granted?
    ensures var e := Legacy.TurnEffect(db, cfg, inp);
      var s := SessionOf(db, inp);
      var d := Decide(cfg, s.data, Today(inp), false).after;
      && e.modelCalled
      && d == s.data.(aiCountDate := Today(inp), aiCount := d.aiCount)
      && d.aiCount == (if s.data.aiCountDate == Today(inp) then s.data.aiCount else 0) + 1
      && (inp.aiAnswer.None? ==> e == Effect(Loaded(db, inp), None, true))
      && (inp.aiAnswer.Some? ==> e.db == SaveTo(Loaded(db, inp), s.(data := d)))
      && (inp.aiAnswer.Some? && inp.aiAnswer.value != "" ==> e.reply == Some(inp.aiAnswer.value))
      && (inp.aiAnswer == Some("") ==> e.reply == Some(DefaultReply))
  {
    var s := SessionOf(db, inp);
    PrologueWrites(db, inp);
    TurnIsDispatch(db, cfg, inp);
    RouteAi(Loaded(db, inp), cfg, inp, s);
    GrantedCountsTheCall(cfg, s.data, Today(inp), false);
    AiGranted(Loaded(db, inp), cfg, inp, s);
  }

  lemma AiGranted(db: Db, cfg: Config, inp: Input, s: Session)
    requires s.state == Menu && !IsReservedLegacy(Text(inp)) && HasDefaultCompany(db.companies)
    requires Decide(cfg, s.data, Today(inp), false).Granted?
    ensures var e := Legacy.AiEffect(db, cfg, inp, s);
      var s1 := s.(data := Decide(cfg, s.data, Today(inp), false).after);
      && e.modelCalled
      && (inp.aiAnswer.None? ==> e == Effect(db, None, true))
      && (inp.aiAnswer.Some? ==> e.db == SaveTo(db, s1))
      && (inp.aiAnswer.Some? && inp.aiAnswer.value != "" ==> e.reply == Some(inp.aiAnswer.value))
      && (inp.aiAnswer == Some("") ==> e.reply == Some(DefaultReply))
  {
    var s1 := s.(data := Decide(cfg, s.data, Today(inp), false).after);
    AiGrantedSaves(db, cfg, inp, s);
    if inp.aiAnswer == Some("") {
      FallThroughToDefault(SaveTo(db, s1), inp, s1);
      SaveTwice(db, s1);
    }
  }

  lemma AiGrantedSaves(db: Db, cfg: Config, inp: Input, s: Session)
    requires HasDefaultCompany(db.companies) && Decide(cfg, s.data, Today(inp), false).Granted?
    ensures var s1 := s.(data := Decide(cfg, s.data, Today(inp), false).after);
      Legacy.AiEffect(db, cfg, inp, s)
        == match inp.aiAnswer
           case None => Effect(db, None, true)
           case Some(answer) =>
             if answer != "" then Effect(SaveTo(db, s1), Some(answer), true)
             else Legacy.CheckoutEffect(SaveTo(db, s1), inp, s1).(modelCalled := true)
  {
  }

  /** In MENU, a message that is no reserved word gets the default reply and the session saved as it is. */
  lemma FallThroughToDefault(db: Db, inp: Input, s: Session)
    requires s.state == Menu && !IsReservedLegacy(Text(inp))
    ensures Legacy.CheckoutEffect(db, inp, s) == Reply(SaveTo(db, s), DefaultReply)
  {
    ReservedListsDiffer(Text(inp));
    UnreservedIsNoWord(Text(inp));
  }
}
