/**
  backend/index.js: the `/whatsapp` turn handler with its session loading and
  tenant resolution, and the `/api/assignments` upsert.

  Each step of the handler is a method on the `Store` that mirrors the
  JavaScript branch by branch, and is proved to leave the store, and to send
  the reply, that a pure function of the store before the step describes
  (the `...Effect` functions). The properties of the handler are lemmas about
  those functions (module BackendProps).
 */
module Backend {
  import opened Options
  import opened Strings
  import opened Tables
  import opened Commands
  import opened Cart
  import opened Governor
  import opened Webhook

  const HumanAck: string := "\U{2705} Listo. Un asesor fue notificado y te va a responder en breve.\n\nMientras tanto podés escribir *menu* para volver al bot."
  const HumanWait: string := "\U{23F3} Un asesor ya fue notificado. Escribí *menu* para volver."

  /** The message sent to the operators when a customer asks for a human. */
  function Notification(companyName: string, from: string, body: string): string {
    "\U{1F64B}\U{200D}\U{2642}\U{FE0F} HUMANO SOLICITADO\nEmpresa: " + companyName + "\nCliente: " + from + "\nMensaje: " + body
  }

  /**
    `getSession(from)`: a customer with no row starts in MENU with an empty
    cart and the default data bag; a stored row keeps its cart, its data keys
    override the defaults, an empty state reads as MENU and an empty order id
    as none.
   */
  function GetSession(sessions: map<string, SessionRow>, from: string): (s: Session)
    ensures s.fromNumber == from && s.state != "" && s.lastOrderId != Some("")
    ensures from !in sessions ==> s == Session(from, Menu, [], DefaultData(), None)
    ensures from in sessions ==> s.cart == sessions[from].cart && s.data == MergeData(sessions[from].data)
    ensures from in sessions && sessions[from].state != "" ==> s.state == sessions[from].state
    ensures from in sessions && sessions[from].state == "" ==> s.state == Menu
    ensures from in sessions && sessions[from].lastOrderId != Some("") ==> s.lastOrderId == sessions[from].lastOrderId
    ensures from in sessions && sessions[from].lastOrderId == Some("") ==> s.lastOrderId == None
  {
    if from !in sessions then Session(from, Menu, [], DefaultData(), None)
    else
      var r := sessions[from];
      Session(from, if r.state == "" then Menu else r.state, r.cart, MergeData(r.data),
              if r.lastOrderId == Some("") then None else r.lastOrderId)
  }

  /** `getCompanySafe(session)`: the id is lowercased, the default company is the fallback. */
  function CompanyOf(db: Db, s: Session): Option<Company> {
    CompanySafe(db.companies, s.data.companyId, true)
  }

  // The effect of each step on a store value.

  /**
    Lines 413-428: remember the sender as the last customer (unless the
    message is an admin command), load the session, and impose the company
    the dashboard assigned to the sender.
   */
  function PrologueEffect(db: Db, inp: Input): (Db, Session) {
    var db1 := RememberCustomer(db, inp);
    var s := GetSession(db1.sessions, From(inp));
    if From(inp) in db1.customerCompany && db1.customerCompany[From(inp)].companyId != "" then
      var s1 := s.(data := s.data.(companyId := db1.customerCompany[From(inp)].companyId));
      (SaveTo(db1, s1), s1)
    else (db1, s)
  }

  /** One POST to `/whatsapp`. */
  function TurnEffect(db: Db, cfg: Config, inp: Input): Effect {
    var (db1, s) := PrologueEffect(db, inp);
    DispatchEffect(db1, cfg, inp, s)
  }

  /** The priority-ordered branches of the handler, after the prologue. */
  function DispatchEffect(db: Db, cfg: Config, inp: Input, s: Session): Effect {
    var text := Text(inp);
    if IsHumanTrigger(text) then HandOffEffect(db, inp, s)
    else if s.state == Human && (text == "menu" || text == "hola") then MenuEffect(db, s)
    else if s.state == Human && !IsAdminCommand(inp) then Reply(db, HumanWait)
    else if IsAdminCommand(inp) then AdminEffect(db, cfg, inp)
    else if text == "menu" || text == "hola" then MenuEffect(db, s)
    else if text == "catalogo" then CatalogEffect(db, CompanyOf(db, s))
    else if text == "carrito" then Effect(db, CartView(CompanyOf(db, s), s.cart, false), false)
    else if ParseAdd(text).Some? then AddEffect(db, s, ParseAdd(text).value)
    else if Enrolled(s.data.aiMode, true) && s.state == Menu && !IsReserved(text) then AiEffect(db, cfg, inp, s)
    else CheckoutEffect(db, inp, s)
  }

  /** Lines 433-449: HUMAN, saved, then the operators are notified. */
  function HandOffEffect(db: Db, inp: Input, s: Session): Effect {
    var s1 := s.(state := Human, data := s.data.(humanNotified := true));
    var db1 := SaveTo(db, s1);
    match CompanyOf(db1, s1)
    case None => Crash(db1)
    case Some(c) => Reply(db1.(outbox := db1.outbox + [Notification(c.name, From(inp), Body(inp))]), HumanAck)
  }

  /** Lines 452-457 and 548-553: back to MENU and the menu of the company. */
  function MenuEffect(db: Db, s: Session): (e: Effect)
    ensures !e.modelCalled
    ensures e.db.companies == db.companies && e.db.customerCompany == db.customerCompany
    ensures e.db.settings == db.settings && e.db.outbox == db.outbox
  {
    var s1 := s.(state := Menu, data := s.data.(humanNotified := false));
    var db1 := SaveTo(db, s1);
    match CompanyOf(db1, s1)
    case None => Crash(db1)
    case Some(c) => Reply(db1, MenuText(c))
  }

  /** Lines 558-567: "agregar <id>". */
  function AddEffect(db: Db, s: Session, id: nat): (e: Effect)
    ensures !e.modelCalled
    ensures e.db.companies == db.companies && e.db.customerCompany == db.customerCompany
    ensures e.db.settings == db.settings && e.db.outbox == db.outbox
  {
    match CompanyOf(db, s)
    case None => Crash(db)
    case Some(c) =>
      match FindProduct(c.catalog, id)
      case None => Reply(db, UnknownProduct)
      case Some(p) =>
        var s1 := s.(cart := s.cart + [id]);
        var db1 := SaveTo(db, s1);
        Reply(db1, AddedReply(p.name, CartView(Some(c), s1.cart, false).value))
  }

  /**
    Lines 570-573 with `aiReply` (256-292): the quota, then the model, whose
    trimmed answer is the reply; an empty answer falls through to the
    remaining branches with the counted call already saved. A rejected call
    (282-286) throws before the count is saved.
   */
  function AiEffect(db: Db, cfg: Config, inp: Input, s: Session): Effect {
    match Decide(cfg, s.data, Today(inp), true)
    case Unavailable => Reply(db, AiUnavailable)
    case Exhausted => Reply(db, AiLimitReached)
    case Granted(d) =>
      match CompanyOf(db, s)
      case None => Crash(db)
      case Some(_) =>
        match inp.aiAnswer
        case None => Effect(db, None, true)
        case Some(output) =>
          var s1 := s.(data := d);
          var db1 := SaveTo(db, s1);
          var answer := Trim(output);
          if answer != "" then Effect(db1, Some(answer), true)
          else CheckoutEffect(db1, inp, s1).(modelCalled := true)
  }

  /** Lines 576-642: checkout, the two questions, confirmation, and the default reply. */
  function CheckoutEffect(db: Db, inp: Input, s: Session): (e: Effect)
    ensures !e.modelCalled
    ensures e.db.companies == db.companies && e.db.customerCompany == db.customerCompany
    ensures e.db.settings == db.settings && e.db.outbox == db.outbox
  {
    var text := Text(inp);
    if text == "checkout" then
      if s.cart == [] then Reply(db, CheckoutEmpty)
      else Reply(SaveTo(db, s.(state := AskName)), AskNamePrompt)
    else if s.state == AskName && !IsReserved(text) then
      Reply(SaveTo(db, s.(state := AskContact, data := s.data.(name := Some(Body(inp))))), AskContactPrompt)
    else if s.state == AskContact && !IsReserved(text) then
      var s1 := s.(state := Ready, data := s.data.(contact := Some(Body(inp))));
      var db1 := SaveTo(db, s1);
      match CartView(CompanyOf(db1, s1), s1.cart, false)
      case None => Crash(db1)
      case Some(t) => Reply(db1, SummaryReply(t))
    else if text == "confirmar" && s.state == Ready then ConfirmEffect(db, inp, s)
    else Reply(SaveTo(db, s), DefaultReply)
  }

  /** The order "confirmar" inserts. */
  function OrderOf(c: Company, inp: Input, s: Session): Order {
    Order(OrderId(inp), inp.now, From(inp), c.id, Some(s.data.name.GetOr("")), Some(s.data.contact.GetOr("")), "",
          s.cart, Lines(c.catalog, s.cart, false), ItemSum(c.catalog, s.cart), "pending", "", "confirmed", None)
  }

  /** Lines 598-638: the order is inserted, then the cart emptied and the session back in MENU. */
  function ConfirmEffect(db: Db, inp: Input, s: Session): (e: Effect)
    ensures !e.modelCalled
    ensures e.db.companies == db.companies && e.db.customerCompany == db.customerCompany
    ensures e.db.settings == db.settings && e.db.outbox == db.outbox
  {
    match CompanyOf(db, s)
    case None => Crash(db)
    case Some(c) =>
      var id := OrderId(inp);
      if id in db.orders then Crash(db)
      else
        var db1 := db.(orders := db.orders[id := OrderOf(c, inp, s)]);
        Reply(SaveTo(db1, s.(cart := [], state := Menu, lastOrderId := Some(id))),
              ConfirmedReply(id, ItemSum(c.catalog, s.cart)))
  }

  /** Lines 465-545: the admin commands. */
  function AdminEffect(db: Db, cfg: Config, inp: Input): (e: Effect)
    ensures !e.modelCalled
    ensures e.db.orders == db.orders && e.db.companies == db.companies
    ensures e.db.settings == db.settings && e.db.outbox == db.outbox
  {
    var from := From(inp);
    var cmd := Cmd(inp);
    if !IsAdmin(cfg.adminNumber, from) then Reply(db, Restricted)
    else if cmd == "admin whoami" then Reply(db, WhoAmIReply(from))
    else if cmd == "admin company list" then Reply(db, CompanyListText(SortById(db.companies)))
    else if ParseCompanySet(cmd).Some? then
      CompanySetEffect(db, inp, ParseCompanySet(cmd).value.0, ParseCompanySet(cmd).value.1)
    else if ParseAiSet(cmd).Some? then AiSetEffect(db, ParseAiSet(cmd).value.0, ParseAiSet(cmd).value.1)
    else if ParseAiStatus(cmd).Some? then AiStatusEffect(db, ParseAiStatus(cmd).value)
    else Reply(db, AdminOk)
  }

  /** The command's target, else the last customer; "" when there is neither. */
  function TargetOf(db: Db, arg: string): string {
    var t := Trim(arg);
    if t == "" then GetSetting(db.settings, LastCustomerKey) else t
  }

  /** Lines 479-510: assign a company to a customer, persistently and in the session. */
  function CompanySetEffect(db: Db, inp: Input, rawId: string, arg: string): (e: Effect)
    ensures !e.modelCalled
    ensures e.db.orders == db.orders && e.db.companies == db.companies
    ensures e.db.settings == db.settings && e.db.outbox == db.outbox
  {
    var id := Lower(rawId);
    match FindCompany(db.companies, id)
    case None => Reply(db, CompanyMissingReply(id))
    case Some(row) =>
      var t := TargetOf(db, arg);
      if t == "" then Reply(db, NoLastCustomer)
      else
        var target := NormalizeTarget(t);
        var db1 := db.(customerCompany := db.customerCompany[target := Assignment(id, inp.now)]);
        var s2 := GetSession(db1.sessions, target);
        Reply(SaveTo(db1, s2.(data := s2.data.(companyId := id))), CompanySetReply(target, row))
  }

  /** Lines 513-527: set a customer's AI mode. */
  function AiSetEffect(db: Db, mode: string, arg: string): (e: Effect)
    ensures !e.modelCalled
    ensures e.db.orders == db.orders && e.db.companies == db.companies
    ensures e.db.settings == db.settings && e.db.outbox == db.outbox
  {
    var t := TargetOf(db, arg);
    if t == "" then Reply(db, NoActiveCustomer)
    else
      var target := NormalizeTarget(t);
      var s2 := GetSession(db.sessions, target);
      Reply(SaveTo(db, s2.(data := s2.data.(aiMode := Lower(mode)))), AiSetReply(mode, target))
  }

  /** Lines 530-542: report a customer's AI mode. */
  function AiStatusEffect(db: Db, arg: string): (e: Effect)
    ensures e.db == db && !e.modelCalled && e.reply.Some?
  {
    var t := TargetOf(db, arg);
    if t == "" then Reply(db, NoActiveCustomer)
    else Reply(db, AiStatusReply(GetSession(db.sessions, NormalizeTarget(t)).data.aiMode))
  }

  /**
    POST /api/assignments (lines 375-403): with a known company, upsert the
    assignment and, when the customer has a session row, set its stored
    company; `false` is the "Empresa no existe" error, which changes nothing.
   */
  function AssignEffect(db: Db, rawFrom: string, rawCompany: string, now: string): (Db, bool) {
    var fromNumber := NormalizeTarget(Trim(rawFrom));
    var companyId := Trim(rawCompany);
    if FindCompany(db.companies, companyId).None? then (db, false)
    else
      var db1 := db.(customerCompany := db.customerCompany[fromNumber := Assignment(companyId, now)]);
      if fromNumber in db1.sessions then
        var row := db1.sessions[fromNumber];
        (db1.(sessions := db1.sessions[fromNumber := row.(data := row.data.(companyId := Some(companyId)))]), true)
      else (db1, true)
  }

  // The handler, step by step on the store.

  /** `app.post("/whatsapp", ...)`: `reply` is what `respond` sends, `None` when the handler throws. */
  method HandleTurn(store: Store, cfg: Config, inp: Input) returns (reply: Option<string>, modelCalled: bool)
    modifies store
    ensures Effect(store.Snapshot(), reply, modelCalled) == TurnEffect(old(store.Snapshot()), cfg, inp)
  {
    var session := LoadSession(store, inp);
    reply, modelCalled := Dispatch(store, cfg, inp, session);
  }

  method LoadSession(store: Store, inp: Input) returns (session: Session)
    modifies store
    ensures (store.Snapshot(), session) == PrologueEffect(old(store.Snapshot()), inp)
  {
    ghost var db1 := RememberCustomer(old(store.Snapshot()), inp);
    var from := From(inp);
    var cmd := Cmd(inp);
    if from != "" && !StartsWith(cmd, "admin") {
      store.SetSetting(LastCustomerKey, from);
    }
    assert store.Snapshot() == db1;
    session := GetSession(store.sessions, from);
    if from in store.customerCompany && store.customerCompany[from].companyId != "" {
      session := session.(data := session.data.(companyId := store.customerCompany[from].companyId));
      store.SaveSession(session);
      assert store.Snapshot() == SaveTo(db1, session);
    }
  }

  method Dispatch(store: Store, cfg: Config, inp: Input, session: Session) returns (reply: Option<string>, modelCalled: bool)
    modifies store
    ensures Effect(store.Snapshot(), reply, modelCalled) == DispatchEffect(old(store.Snapshot()), cfg, inp, session)
  {
    ghost var db := store.Snapshot();
    modelCalled := false;
    if IsHumanTrigger(Text(inp)) {
      assert DispatchEffect(db, cfg, inp, session) == HandOffEffect(db, inp, session);
      reply := HandOff(store, inp, session);
    } else if session.state == Human {
      reply := HumanTurn(store, cfg, inp, session);
    } else if StartsWith(Cmd(inp), "admin") {
      assert DispatchEffect(db, cfg, inp, session) == AdminEffect(db, cfg, inp);
      reply := AdminCommand(store, cfg, inp);
    } else {
      reply, modelCalled := CustomerWords(store, cfg, inp, session);
    }
  }

  /** Lines 452-462 and the admin gate for a customer in HUMAN. */
  method HumanTurn(store: Store, cfg: Config, inp: Input, session: Session) returns (reply: Option<string>)
    requires !IsHumanTrigger(Text(inp)) && session.state == Human
    modifies store
    ensures Effect(store.Snapshot(), reply, false) == DispatchEffect(old(store.Snapshot()), cfg, inp, session)
  {
    ghost var db := store.Snapshot();
    var text := Text(inp);
    if text == "menu" || text == "hola" {
      assert DispatchEffect(db, cfg, inp, session) == MenuEffect(db, session);
      reply := EnterMenu(store, session);
    } else if !StartsWith(Cmd(inp), "admin") {
      assert DispatchEffect(db, cfg, inp, session) == Reply(db, HumanWait);
      reply := Some(HumanWait);
    } else {
      assert DispatchEffect(db, cfg, inp, session) == AdminEffect(db, cfg, inp);
      reply := AdminCommand(store, cfg, inp);
    }
  }

  /** The branches a customer's message reaches once it is neither a trigger nor an admin command, outside HUMAN. */
  method CustomerWords(store: Store, cfg: Config, inp: Input, session: Session) returns (reply: Option<string>, modelCalled: bool)
    requires !IsHumanTrigger(Text(inp)) && !IsAdminCommand(inp) && session.state != Human
    modifies store
    ensures Effect(store.Snapshot(), reply, modelCalled) == DispatchEffect(old(store.Snapshot()), cfg, inp, session)
  {
    var text := Text(inp);
    modelCalled := false;
    if text == "menu" || text == "hola" {
      reply := EnterMenu(store, session);
      return;
    }
    if text == "catalogo" {
      var c := CompanySafe(store.companies, session.data.companyId, true);
      if c.None? {
        return None, false;
      }
      return Some(CatalogText(c.value)), false;
    }
    if text == "carrito" {
      reply := CartText(CompanySafe(store.companies, session.data.companyId, true), session.cart, false);
      return;
    }
    reply, modelCalled := OrderWords(store, cfg, inp, session);
  }

  /** "agregar <n>", the AI branch and the checkout flow. */
  method OrderWords(store: Store, cfg: Config, inp: Input, session: Session) returns (reply: Option<string>, modelCalled: bool)
    requires !IsHumanTrigger(Text(inp)) && !IsAdminCommand(inp) && session.state != Human
    requires Text(inp) != "menu" && Text(inp) != "hola" && Text(inp) != "catalogo" && Text(inp) != "carrito"
    modifies store
    ensures Effect(store.Snapshot(), reply, modelCalled) == DispatchEffect(old(store.Snapshot()), cfg, inp, session)
  {
    var text := Text(inp);
    modelCalled := false;
    var add := ParseAdd(text);
    if add.Some? {
      reply := AddItem(store, session, add.value);
      return;
    }
    if Enrolled(session.data.aiMode, true) && session.state == Menu && !IsReserved(text) {
      reply, modelCalled := AskAi(store, cfg, inp, session);
      return;
    }
    reply := CheckoutSteps(store, inp, session);
  }

  method HandOff(store: Store, inp: Input, session: Session) returns (reply: Option<string>)
    modifies store
    ensures Effect(store.Snapshot(), reply, false) == HandOffEffect(old(store.Snapshot()), inp, session)
  {
    var s := session.(state := Human, data := session.data.(humanNotified := true));
    store.SaveSession(s);
    var c := CompanySafe(store.companies, s.data.companyId, true);
    if c.None? {
      return None;
    }
    store.Notify(Notification(c.value.name, From(inp), Body(inp)));
    reply := Some(HumanAck);
  }

  method EnterMenu(store: Store, session: Session) returns (reply: Option<string>)
    modifies store
    ensures Effect(store.Snapshot(), reply, false) == MenuEffect(old(store.Snapshot()), session)
  {
    var s := session.(state := Menu, data := session.data.(humanNotified := false));
    store.SaveSession(s);
    var c := CompanySafe(store.companies, s.data.companyId, true);
    if c.None? {
      return None;
    }
    reply := Some(MenuText(c.value));
  }

  method AddItem(store: Store, session: Session, id: nat) returns (reply: Option<string>)
    modifies store
    ensures Effect(store.Snapshot(), reply, false) == AddEffect(old(store.Snapshot()), session, id)
  {
    var company := CompanySafe(store.companies, session.data.companyId, true);
    if company.None? {
      return None;
    }
    var p := FindProduct(company.value.catalog, id);
    if p.None? {
      return Some(UnknownProduct);
    }
    var s := session.(cart := session.cart + [id]);
    store.SaveSession(s);
    var cart := CartText(company, s.cart, false);
    reply := Some(AddedReply(p.value.name, cart.value));
  }

  /** `aiReply` and the test of its answer. */
  method AskAi(store: Store, cfg: Config, inp: Input, session: Session) returns (reply: Option<string>, modelCalled: bool)
    modifies store
    ensures Effect(store.Snapshot(), reply, modelCalled) == AiEffect(old(store.Snapshot()), cfg, inp, session)
  {
    if !AiEnabled(cfg) {
      return Some(AiUnavailable), false;
    }
    var s := session;
    var today := Today(inp);
    if s.data.aiCountDate != today {
      s := s.(data := s.data.(aiCountDate := today, aiCount := 0));
    }
    assert s.data == Rollover(session.data, today);
    if s.data.aiCount >= DailyLimit(s.data.aiMode, true) {
      return Some(AiLimitReached), false;
    }
    var c := CompanySafe(store.companies, s.data.companyId, true);
    if c.None? {
      return None, false;
    }
    // The model is asked here; `inp.aiAnswer` is what it answers.
    if inp.aiAnswer.None? {
      return None, true;
    }
    s := s.(data := s.data.(aiCount := s.data.aiCount + 1));
    assert Decide(cfg, session.data, today, true) == Granted(s.data);
    ghost var db1 := SaveTo(store.Snapshot(), s);
    store.SaveSession(s);
    var answer := Trim(inp.aiAnswer.value);
    if answer != "" {
      return Some(answer), true;
    }
    assert AiEffect(old(store.Snapshot()), cfg, inp, session) == CheckoutEffect(db1, inp, s).(modelCalled := true);
    reply := CheckoutSteps(store, inp, s);
    modelCalled := true;
  }

  method CheckoutSteps(store: Store, inp: Input, session: Session) returns (reply: Option<string>)
    modifies store
    ensures Effect(store.Snapshot(), reply, false) == CheckoutEffect(old(store.Snapshot()), inp, session)
  {
    var text := Text(inp);
    var body := Body(inp);
    if text == "checkout" {
      if session.cart == [] {
        return Some(CheckoutEmpty);
      }
      store.SaveSession(session.(state := AskName));
      return Some(AskNamePrompt);
    }
    if session.state == AskName && !IsReserved(text) {
      store.SaveSession(session.(state := AskContact, data := session.data.(name := Some(body))));
      return Some(AskContactPrompt);
    }
    if session.state == AskContact && !IsReserved(text) {
      var s := session.(state := Ready, data := session.data.(contact := Some(body)));
      store.SaveSession(s);
      var cart := CartText(CompanySafe(store.companies, s.data.companyId, true), s.cart, false);
      if cart.None? {
        return None;
      }
      return Some(SummaryReply(cart.value));
    }
    if text == "confirmar" && session.state == Ready {
      reply := ConfirmOrder(store, inp, session);
      return;
    }
    store.SaveSession(session);
    reply := Some(DefaultReply);
  }

  method ConfirmOrder(store: Store, inp: Input, session: Session) returns (reply: Option<string>)
    modifies store
    ensures Effect(store.Snapshot(), reply, false) == ConfirmEffect(old(store.Snapshot()), inp, session)
  {
    var company := CompanySafe(store.companies, session.data.companyId, true);
    if company.None? {
      return None;
    }
    var c := company.value;
    var items := session.cart;
    var _, detailed, total := Group(c.catalog, items, false);
    var orderId := OrderId(inp);
    var inserted := store.InsertOrder(Order(orderId, inp.now, From(inp), c.id,
      Some(session.data.name.GetOr("")), Some(session.data.contact.GetOr("")), "",
      items, detailed, total, "pending", "", "confirmed", None));
    if !inserted {
      return None;
    }
    store.SaveSession(session.(cart := [], state := Menu, lastOrderId := Some(orderId)));
    reply := Some(ConfirmedReply(orderId, total));
  }

  method AdminCommand(store: Store, cfg: Config, inp: Input) returns (reply: Option<string>)
    modifies store
    ensures Effect(store.Snapshot(), reply, false) == AdminEffect(old(store.Snapshot()), cfg, inp)
  {
    var from := From(inp);
    var cmd := Cmd(inp);
    if !IsAdmin(cfg.adminNumber, from) {
      return Some(Restricted);
    }
    if cmd == "admin whoami" {
      return Some(WhoAmIReply(from));
    }
    if cmd == "admin company list" {
      return Some(CompanyListText(SortById(store.companies)));
    }
    var companySet := ParseCompanySet(cmd);
    if companySet.Some? {
      reply := SetCompany(store, inp, companySet.value.0, companySet.value.1);
      return;
    }
    var aiSet := ParseAiSet(cmd);
    if aiSet.Some? {
      var target := TargetOf(store.Snapshot(), aiSet.value.1);
      if target == "" {
        return Some(NoActiveCustomer);
      }
      target := NormalizeTarget(target);
      var s2 := GetSession(store.sessions, target);
      store.SaveSession(s2.(data := s2.data.(aiMode := Lower(aiSet.value.0))));
      return Some(AiSetReply(aiSet.value.0, target));
    }
    var status := ParseAiStatus(cmd);
    if status.Some? {
      var target := TargetOf(store.Snapshot(), status.value);
      if target == "" {
        return Some(NoActiveCustomer);
      }
      var s2 := GetSession(store.sessions, NormalizeTarget(target));
      return Some(AiStatusReply(s2.data.aiMode));
    }
    reply := Some(AdminOk);
  }

  method SetCompany(store: Store, inp: Input, rawId: string, arg: string) returns (reply: Option<string>)
    modifies store
    ensures Effect(store.Snapshot(), reply, false) == CompanySetEffect(old(store.Snapshot()), inp, rawId, arg)
  {
    var companyId := Lower(rawId);
    var row := FindCompany(store.companies, companyId);
    if row.None? {
      return Some(CompanyMissingReply(companyId));
    }
    var target := TargetOf(store.Snapshot(), arg);
    if target == "" {
      return Some(NoLastCustomer);
    }
    target := NormalizeTarget(target);
    store.UpsertAssignment(target, Assignment(companyId, inp.now));
    var s2 := GetSession(store.sessions, target);
    store.SaveSession(s2.(data := s2.data.(companyId := companyId)));
    reply := Some(CompanySetReply(target, row.value));
  }

  /** `app.post("/api/assignments", ...)`: `ok` is false for the "Empresa no existe" error. */
  method PostAssignment(store: Store, rawFrom: string, rawCompany: string, now: string) returns (ok: bool)
    modifies store
    ensures (store.Snapshot(), ok) == AssignEffect(old(store.Snapshot()), rawFrom, rawCompany, now)
  {
    var fromNumber := NormalizeTarget(Trim(rawFrom));
    var companyId := Trim(rawCompany);
    if FindCompany(store.companies, companyId).None? {
      return false;
    }
    store.UpsertAssignment(fromNumber, Assignment(companyId, now));
    if fromNumber in store.sessions {
      var data := store.sessions[fromNumber].data.(companyId := Some(companyId));
      store.UpdateStoredData(fromNumber, data);
    }
    ok := true;
  }
}
