/**
  index.js: the earlier revision of the `/whatsapp` turn handler. It has no
  `customer_company` table and sends no notification; its HUMAN state takes
  every non-admin message; its checkout questions accept any text; its AI
  target numbers are normalised differently; and `cartText` and "confirmar"
  read the catalog entry of every cart id with no fallback.

  As in module Backend, each step is a method on the `Store` proved to have
  the effect a pure `...Effect` function describes; the properties are lemmas
  in module LegacyProps.
 */
module Legacy {
  import opened Options
  import opened Strings
  import opened Tables
  import opened Commands
  import opened Cart
  import opened Governor
  import opened Webhook

  const HumanAck: string := "\U{2705} Listo. Un asesor te va a responder en breve."
  const HumanWait: string := "\U{23F3} Un asesor ya fue notificado."

  /**
    `getSession(from)`: a customer with no row starts in MENU with an empty
    cart and the default data bag; a stored row is taken as it is, its data
    keys overriding the defaults.
   */
  function GetSession(sessions: map<string, SessionRow>, from: string): (s: Session)
    ensures s.fromNumber == from
    ensures from !in sessions ==> s == Session(from, Menu, [], DefaultData(), None)
    ensures from in sessions ==>
      s.state == sessions[from].state && s.cart == sessions[from].cart &&
      s.data == MergeData(sessions[from].data) && s.lastOrderId == sessions[from].lastOrderId
  {
    if from !in sessions then Session(from, Menu, [], DefaultData(), None)
    else
      var r := sessions[from];
      Session(from, r.state, r.cart, MergeData(r.data), r.lastOrderId)
  }

  /** `getCompanySafe(session)`: the id as stored, the default company as the fallback. */
  function CompanyOf(db: Db, s: Session): Option<Company> {
    CompanySafe(db.companies, s.data.companyId, false)
  }

  // The effect of each step on a store value.

  /** Lines 241-249: remember the sender as the last customer unless the message is an admin command, and load the session. */
  function PrologueEffect(db: Db, inp: Input): (Db, Session) {
    var db1 := RememberCustomer(db, inp);
    (db1, GetSession(db1.sessions, From(inp)))
  }

  /** One POST to `/whatsapp`. */
  function TurnEffect(db: Db, cfg: Config, inp: Input): Effect {
    var (db1, s) := PrologueEffect(db, inp);
    DispatchEffect(db1, cfg, inp, s)
  }

  /** The priority-ordered branches of the handler, after the prologue. */
  function DispatchEffect(db: Db, cfg: Config, inp: Input, s: Session): Effect {
    var text := Text(inp);
    if IsHumanTrigger(text) then
      Reply(SaveTo(db, s.(state := Human, data := s.data.(humanNotified := true))), HumanAck)
    else if s.state == Human && !IsAdminCommand(inp) then Reply(db, HumanWait)
    else if IsAdminCommand(inp) then AdminEffect(db, cfg, inp)
    else if text == "menu" || text == "hola" then MenuEffect(db, s)
    else if text == "catalogo" then CatalogEffect(db, CompanyOf(db, s))
    else if text == "carrito" then Effect(db, CartView(CompanyOf(db, s), s.cart, true), false)
    else if ParseAdd(text).Some? then AddEffect(db, s, ParseAdd(text).value)
    else if Enrolled(s.data.aiMode, false) && s.state == Menu && !IsReservedLegacy(text) then AiEffect(db, cfg, inp, s)
    else CheckoutEffect(db, inp, s)
  }

  /** Lines 350-355: back to MENU and the menu of the company. */
  function MenuEffect(db: Db, s: Session): (e: Effect)
    ensures !e.modelCalled
    ensures e.db.companies == db.companies && e.db.customerCompany == db.customerCompany
    ensures e.db.settings == db.settings && e.db.outbox == db.outbox
  {
    var s1 := s.(state := Menu, data := s.data.(humanNotified := false));
    var db1 := SaveTo(db, s1);
    match CompanyOf(db1, s1)
    case None => Crash(db1)
    case Some(c) => Reply(db1, MenuText(c))
  }

  /** Lines 365-374: "agregar <id>"; the cart is saved before it is rendered. */
  function AddEffect(db: Db, s: Session, id: nat): (e: Effect)
    ensures !e.modelCalled
    ensures e.db.companies == db.companies && e.db.customerCompany == db.customerCompany
    ensures e.db.settings == db.settings && e.db.outbox == db.outbox
  {
    match CompanyOf(db, s)
    case None => Crash(db)
    case Some(c) =>
      match FindProduct(c.catalog, id)
      case None => Reply(db, UnknownProduct)
      case Some(p) =>
        var s1 := s.(cart := s.cart + [id]);
        var db1 := SaveTo(db, s1);
        match CartView(Some(c), s1.cart, true)
        case None => Crash(db1)
        case Some(t) => Reply(db1, AddedReply(p.name, t))
  }

  /**
    Lines 377-384 with `aiReply` (187-225): the quota, then the model, whose
    answer (untrimmed) is the reply; an empty answer falls through to the
    remaining branches with the counted call already saved. A rejected call
    (215-219) throws before the count is saved.
   */
  function AiEffect(db: Db, cfg: Config, inp: Input, s: Session): Effect {
    match Decide(cfg, s.data, Today(inp), false)
    case Unavailable => Reply(db, AiUnavailable)
    case Exhausted => Reply(db, AiLimitReached)
    case Granted(d) =>
      match CompanyOf(db, s)
      case None => Crash(db)
      case Some(_) =>
        match inp.aiAnswer
        case None => Effect(db, None, true)
        case Some(answer) =>
          var s1 := s.(data := d);
          var db1 := SaveTo(db, s1);
          if answer != "" then Effect(db1, Some(answer), true)
          else CheckoutEffect(db1, inp, s1).(modelCalled := true)
  }

  /** Lines 387-451: checkout, the two questions (no reserved-word guard), confirmation, the default reply. */
  function CheckoutEffect(db: Db, inp: Input, s: Session): (e: Effect)
    ensures !e.modelCalled
    ensures e.db.companies == db.companies && e.db.customerCompany == db.customerCompany
    ensures e.db.settings == db.settings && e.db.outbox == db.outbox
  {
    var text := Text(inp);
    if text == "checkout" then
      if s.cart == [] then Reply(db, CheckoutEmpty)
      else Reply(SaveTo(db, s.(state := AskName)), AskNamePrompt)
    else if s.state == AskName then
      Reply(SaveTo(db, s.(state := AskContact, data := s.data.(name := Some(Body(inp))))), AskContactPrompt)
    else if s.state == AskContact then
      var s1 := s.(state := Ready, data := s.data.(contact := Some(Body(inp))));
      var db1 := SaveTo(db, s1);
      match CartView(CompanyOf(db1, s1), s1.cart, true)
      case None => Crash(db1)
      case Some(t) => Reply(db1, SummaryReply(t))
    else if text == "confirmar" && s.state == Ready then ConfirmEffect(db, inp, s)
    else Reply(SaveTo(db, s), DefaultReply)
  }

  /** The order "confirmar" inserts; name and contact are written as the session holds them. */
  function OrderOf(c: Company, inp: Input, s: Session): Order {
    Order(OrderId(inp), inp.now, From(inp), c.id, s.data.name, s.data.contact, "",
          s.cart, Lines(c.catalog, s.cart, true), ItemSum(c.catalog, s.cart), "pending", "", "confirmed", None)
  }

  /**
    Lines 409-447: every cart id is looked up in the catalog first (a missing
    one throws); the order is inserted, then the cart emptied and the session
    back in MENU.
   */
  function ConfirmEffect(db: Db, inp: Input, s: Session): (e: Effect)
    ensures !e.modelCalled
    ensures e.db.companies == db.companies && e.db.customerCompany == db.customerCompany
    ensures e.db.settings == db.settings && e.db.outbox == db.outbox
  {
    match CompanyOf(db, s)
    case None => Crash(db)
    case Some(c) =>
      var id := OrderId(inp);
      if !AllPriced(c.catalog, s.cart) || id in db.orders then Crash(db)
      else
        var db1 := db.(orders := db.orders[id := OrderOf(c, inp, s)]);
        Reply(SaveTo(db1, s.(cart := [], state := Menu, lastOrderId := Some(id))),
              ConfirmedReply(id, ItemSum(c.catalog, s.cart)))
  }

  /** Lines 267-348: the admin commands. */
  function AdminEffect(db: Db, cfg: Config, inp: Input): (e: Effect)
    ensures !e.modelCalled
    ensures e.db.orders == db.orders && e.db.companies == db.companies && e.db.customerCompany == db.customerCompany
    ensures e.db.settings == db.settings && e.db.outbox == db.outbox
  {
    var from := From(inp);
    var cmd := Cmd(inp);
    if !IsAdminLegacy(cfg.adminNumber, from) then Reply(db, Restricted)
    else if cmd == "admin whoami" then Reply(db, WhoAmIReply(from))
    else if cmd == "admin company list" then Reply(db, CompanyListText(db.companies))
    else if ParseCompanySet(cmd).Some? then
      CompanySetEffect(db, ParseCompanySet(cmd).value.0, ParseCompanySet(cmd).value.1)
    else if ParseAiSet(cmd).Some? then AiSetEffect(db, ParseAiSet(cmd).value.0, ParseAiSet(cmd).value.1)
    else if ParseAiStatus(cmd).Some? then AiStatusEffect(db, ParseAiStatus(cmd).value)
    else Reply(db, AdminOk)
  }

  /** `m[2] || getSetting("last_customer")`: the argument as captured, else the last customer. */
  function TargetOf(db: Db, arg: string): string {
    if arg == "" then GetSetting(db.settings, LastCustomerKey) else arg
  }

  /** Lines 285-323: set the company in the target's session only. */
  function CompanySetEffect(db: Db, rawId: string, arg: string): (e: Effect)
    ensures !e.modelCalled
    ensures e.db.orders == db.orders && e.db.companies == db.companies && e.db.customerCompany == db.customerCompany
    ensures e.db.settings == db.settings && e.db.outbox == db.outbox
  {
    var id := Lower(rawId);
    match FindCompany(db.companies, id)
    case None => Reply(db, CompanyMissingReply(id))
    case Some(row) =>
      var t := TargetOf(db, Trim(arg));
      if t == "" then Reply(db, NoLastCustomer)
      else
        var target := NormalizeTarget(t);
        var s2 := GetSession(db.sessions, target);
        Reply(SaveTo(db, s2.(data := s2.data.(companyId := id))), CompanySetReply(target, row))
  }

  /** Lines 326-335: set a customer's AI mode. */
  function AiSetEffect(db: Db, mode: string, arg: string): (e: Effect)
    ensures !e.modelCalled
    ensures e.db.orders == db.orders && e.db.companies == db.companies && e.db.customerCompany == db.customerCompany
    ensures e.db.settings == db.settings && e.db.outbox == db.outbox
  {
    var t := TargetOf(db, arg);
    if t == "" then Reply(db, NoActiveCustomer)
    else
      var target := NormalizeTargetLegacy(t);
      var s2 := GetSession(db.sessions, target);
      Reply(SaveTo(db, s2.(data := s2.data.(aiMode := mode))), AiSetReply(mode, target))
  }

  /** Lines 338-345: report a customer's AI mode. */
  function AiStatusEffect(db: Db, arg: string): (e: Effect)
    ensures e.db == db && !e.modelCalled && e.reply.Some?
  {
    var t := TargetOf(db, arg);
    if t == "" then Reply(db, NoActiveCustomer)
    else Reply(db, AiStatusReply(GetSession(db.sessions, NormalizeTargetLegacy(t)).data.aiMode))
  }

  // The handler, step by step on the store.

  /** `app.post("/whatsapp", ...)`: `reply` is what `respond` sends, `None` when the handler throws. */
  method HandleTurn(store: Store, cfg: Config, inp: Input) returns (reply: Option<string>, modelCalled: bool)
    modifies store
    ensures Effect(store.Snapshot(), reply, modelCalled) == TurnEffect(old(store.Snapshot()), cfg, inp)
  {
    var session := LoadSession(store, inp);
    reply, modelCalled := Dispatch(store, cfg, inp, session);
  }

  method LoadSession(store: Store, inp: Input) returns (session: Session)
    modifies store
    ensures (store.Snapshot(), session) == PrologueEffect(old(store.Snapshot()), inp)
  {
    var from := From(inp);
    var cmd := Cmd(inp);
    if from != "" && !StartsWith(cmd, "admin") {
      store.SetSetting(LastCustomerKey, from);
    }
    session := GetSession(store.sessions, from);
  }

  method Dispatch(store: Store, cfg: Config, inp: Input, session: Session) returns (reply: Option<string>, modelCalled: bool)
    modifies store
    ensures Effect(store.Snapshot(), reply, modelCalled) == DispatchEffect(old(store.Snapshot()), cfg, inp, session)
  {
    ghost var db := store.Snapshot();
    var text := Text(inp);
    var cmd := Cmd(inp);
    modelCalled := false;
    if IsHumanTrigger(text) {
      store.SaveSession(session.(state := Human, data := session.data.(humanNotified := true)));
      reply := Some(HumanAck);
    } else if session.state == Human && !StartsWith(cmd, "admin") {
      reply := Some(HumanWait);
    } else if StartsWith(cmd, "admin") {
      assert DispatchEffect(db, cfg, inp, session) == AdminEffect(db, cfg, inp);
      reply := AdminCommand(store, cfg, inp);
    } else {
      reply, modelCalled := CustomerWords(store, cfg, inp, session);
    }
  }

  /** The branches a customer's message reaches once it is neither a trigger nor an admin command, outside HUMAN. */
  method CustomerWords(store: Store, cfg: Config, inp: Input, session: Session) returns (reply: Option<string>, modelCalled: bool)
    requires !IsHumanTrigger(Text(inp)) && !IsAdminCommand(inp) && session.state != Human
    modifies store
    ensures Effect(store.Snapshot(), reply, modelCalled) == DispatchEffect(old(store.Snapshot()), cfg, inp, session)
  {
    var text := Text(inp);
    modelCalled := false;
    if text == "menu" || text == "hola" {
      var s := session.(state := Menu, data := session.data.(humanNotified := false));
      store.SaveSession(s);
      var c := CompanySafe(store.companies, s.data.companyId, false);
      if c.None? {
        return None, false;
      }
      return Some(MenuText(c.value)), false;
    }
    if text == "catalogo" {
      var c := CompanySafe(store.companies, session.data.companyId, false);
      if c.None? {
        return None, false;
      }
      return Some(CatalogText(c.value)), false;
    }
    if text == "carrito" {
      reply := CartText(CompanySafe(store.companies, session.data.companyId, false), session.cart, true);
      return;
    }
    reply, modelCalled := OrderWords(store, cfg, inp, session);
  }

  /** "agregar <n>", the AI branch and the checkout flow. */
  method OrderWords(store: Store, cfg: Config, inp: Input, session: Session) returns (reply: Option<string>, modelCalled: bool)
    requires !IsHumanTrigger(Text(inp)) && !IsAdminCommand(inp) && session.state != Human
    requires Text(inp) != "menu" && Text(inp) != "hola" && Text(inp) != "catalogo" && Text(inp) != "carrito"
    modifies store
    ensures Effect(store.Snapshot(), reply, modelCalled) == DispatchEffect(old(store.Snapshot()), cfg, inp, session)
  {
    var text := Text(inp);
    modelCalled := false;
    var add := ParseAdd(text);
    if add.Some? {
      reply := AddItem(store, session, add.value);
      return;
    }
    if Enrolled(session.data.aiMode, false) && session.state == Menu && !IsReservedLegacy(text) {
      reply, modelCalled := AskAi(store, cfg, inp, session);
      return;
    }
    reply := CheckoutSteps(store, inp, session);
  }

  method AddItem(store: Store, session: Session, id: nat) returns (reply: Option<string>)
    modifies store
    ensures Effect(store.Snapshot(), reply, false) == AddEffect(old(store.Snapshot()), session, id)
  {
    var company := CompanySafe(store.companies, session.data.companyId, false);
    if company.None? {
      return None;
    }
    var p := FindProduct(company.value.catalog, id);
    if p.None? {
      return Some(UnknownProduct);
    }
    var s := session.(cart := session.cart + [id]);
    store.SaveSession(s);
    var cart := CartText(company, s.cart, true);
    if cart.None? {
      return None;
    }
    reply := Some(AddedReply(p.value.name, cart.value));
  }

  /** `aiReply` and the test of its answer. */
  method AskAi(store: Store, cfg: Config, inp: Input, session: Session) returns (reply: Option<string>, modelCalled: bool)
    modifies store
    ensures Effect(store.Snapshot(), reply, modelCalled) == AiEffect(old(store.Snapshot()), cfg, inp, session)
  {
    if !AiEnabled(cfg) {
      return Some(AiUnavailable), false;
    }
    var s := session;
    var today := Today(inp);
    if s.data.aiCountDate != today {
      s := s.(data := s.data.(aiCountDate := today, aiCount := 0));
    }
    assert s.data == Rollover(session.data, today);
    if s.data.aiCount >= DailyLimit(s.data.aiMode, false) {
      return Some(AiLimitReached), false;
    }
    var c := CompanySafe(store.companies, s.data.companyId, false);
    if c.None? {
      return None, false;
    }
    // The model is asked here; `inp.aiAnswer` is what it answers.
    if inp.aiAnswer.None? {
      return None, true;
    }
    s := s.(data := s.data.(aiCount := s.data.aiCount + 1));
    assert Decide(cfg, session.data, today, false) == Granted(s.data);
    ghost var db1 := SaveTo(store.Snapshot(), s);
    store.SaveSession(s);
    if inp.aiAnswer.value != "" {
      return Some(inp.aiAnswer.value), true;
    }
    assert AiEffect(old(store.Snapshot()), cfg, inp, session) == CheckoutEffect(db1, inp, s).(modelCalled := true);
    reply := CheckoutSteps(store, inp, s);
    modelCalled := true;
  }

  method CheckoutSteps(store: Store, inp: Input, session: Session) returns (reply: Option<string>)
    modifies store
    ensures Effect(store.Snapshot(), reply, false) == CheckoutEffect(old(store.Snapshot()), inp, session)
  {
    var text := Text(inp);
    var body := Body(inp);
    if text == "checkout" {
      if session.cart == [] {
        return Some(CheckoutEmpty);
      }
      store.SaveSession(session.(state := AskName));
      return Some(AskNamePrompt);
    }
    if session.state == AskName {
      store.SaveSession(session.(state := AskContact, data := session.data.(name := Some(body))));
      return Some(AskContactPrompt);
    }
    if session.state == AskContact {
      var s := session.(state := Ready, data := session.data.(contact := Some(body)));
      store.SaveSession(s);
      var cart := CartText(CompanySafe(store.companies, s.data.companyId, false), s.cart, true);
      if cart.None? {
        return None;
      }
      return Some(SummaryReply(cart.value));
    }
    if text == "confirmar" && session.state == Ready {
      reply := ConfirmOrder(store, inp, session);
      return;
    }
    store.SaveSession(session);
    reply := Some(DefaultReply);
  }

  method ConfirmOrder(store: Store, inp: Input, session: Session) returns (reply: Option<string>)
    modifies store
    ensures Effect(store.Snapshot(), reply, false) == ConfirmEffect(old(store.Snapshot()), inp, session)
  {
    var company := CompanySafe(store.companies, session.data.companyId, false);
    if company.None? {
      return None;
    }
    var c := company.value;
    var items := session.cart;
    var priced, detailed, total := Group(c.catalog, items, true);
    if !priced {
      return None;
    }
    var orderId := OrderId(inp);
    var inserted := store.InsertOrder(Order(orderId, inp.now, From(inp), c.id,
      session.data.name, session.data.contact, "",
      items, detailed, total, "pending", "", "confirmed", None));
    if !inserted {
      return None;
    }
    store.SaveSession(session.(cart := [], state := Menu, lastOrderId := Some(orderId)));
    reply := Some(ConfirmedReply(orderId, total));
  }

  method AdminCommand(store: Store, cfg: Config, inp: Input) returns (reply: Option<string>)
    modifies store
    ensures Effect(store.Snapshot(), reply, false) == AdminEffect(old(store.Snapshot()), cfg, inp)
  {
    var from := From(inp);
    var cmd := Cmd(inp);
    if !IsAdminLegacy(cfg.adminNumber, from) {
      return Some(Restricted);
    }
    if cmd == "admin whoami" {
      return Some(WhoAmIReply(from));
    }
    if cmd == "admin company list" {
      return Some(CompanyListText(store.companies));
    }
    var companySet := ParseCompanySet(cmd);
    if companySet.Some? {
      var companyId := Lower(companySet.value.0);
      var row := FindCompany(store.companies, companyId);
      if row.None? {
        return Some(CompanyMissingReply(companyId));
      }
      var target := TargetOf(store.Snapshot(), Trim(companySet.value.1));
      if target == "" {
        return Some(NoLastCustomer);
      }
      target := NormalizeTarget(target);
      var s2 := GetSession(store.sessions, target);
      store.SaveSession(s2.(data := s2.data.(companyId := companyId)));
      return Some(CompanySetReply(target, row.value));
    }
    var aiSet := ParseAiSet(cmd);
    if aiSet.Some? {
      var target := TargetOf(store.Snapshot(), aiSet.value.1);
      if target == "" {
        return Some(NoActiveCustomer);
      }
      target := NormalizeTargetLegacy(target);
      var s2 := GetSession(store.sessions, target);
      store.SaveSession(s2.(data := s2.data.(aiMode := aiSet.value.0)));
      return Some(AiSetReply(aiSet.value.0, target));
    }
    var status := ParseAiStatus(cmd);
    if status.Some? {
      var target := TargetOf(store.Snapshot(), status.value);
      if target == "" {
        return Some(NoActiveCustomer);
      }
      var s2 := GetSession(store.sessions, NormalizeTargetLegacy(target));
      return Some(AiStatusReply(s2.data.aiMode));
    }
    reply := Some(AdminOk);
  }
}
