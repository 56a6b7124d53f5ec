/**
  Facts about every turn of the backend/index.js handler that hold over the
  whole store rather than one branch: a session waiting for a name, a
  contact or a confirmation always has something in its cart, and the
  handler sends a reply unless the fallback company is missing or the new
  order id is already taken.
 */
module BackendInvariants {
  import opened Options
  import opened Strings
  import opened Tables
  import opened Commands
  import opened Cart
  import opened Governor
  import opened Webhook
  import opened Words
  import Backend
  import opened BackendProps

  /** The states between "checkout" and "confirmar". */
  predicate InCheckout(state: string) {
    state == AskName || state == AskContact || state == Ready
  }

  /** A session in one of the checkout states has a non-empty cart. */
  predicate Fits(s: Session) {
    InCheckout(s.state) ==> s.cart != []
  }

  /** Every stored session fits. */
  predicate CartsBehindQuestions(sessions: map<string, SessionRow>) {
    forall k :: k in sessions && InCheckout(sessions[k].state) ==> sessions[k].cart != []
  }

  lemma SaveKeeps(sessions: map<string, SessionRow>, s: Session)
    requires CartsBehindQuestions(sessions) && Fits(s)
    ensures CartsBehindQuestions(Save(sessions, s))
  {
  }

  lemma GetSessionFits(sessions: map<string, SessionRow>, from: string)
    requires CartsBehindQuestions(sessions)
    ensures Fits(Backend.GetSession(sessions, from))
  {
  }

  // The invariant, branch by branch.

  lemma HandOffKeeps(db: Db, inp: Input, s: Session)
    requires CartsBehindQuestions(db.sessions)
    ensures CartsBehindQuestions(Backend.HandOffEffect(db, inp, s).db.sessions)
  {
    SaveKeeps(db.sessions, s.(state := Human, data := s.data.(humanNotified := true)));
  }

  lemma MenuKeeps(db: Db, s: Session)
    requires CartsBehindQuestions(db.sessions)
    ensures CartsBehindQuestions(Backend.MenuEffect(db, s).db.sessions)
  {
    SaveKeeps(db.sessions, s.(state := Menu, data := s.data.(humanNotified := false)));
  }

  lemma AddKeeps(db: Db, s: Session, id: nat)
    requires CartsBehindQuestions(db.sessions)
    ensures CartsBehindQuestions(Backend.AddEffect(db, s, id).db.sessions)
  {
    SaveKeeps(db.sessions, s.(cart := s.cart + [id]));
  }

  lemma ConfirmKeeps(db: Db, inp: Input, s: Session)
    requires CartsBehindQuestions(db.sessions)
    ensures CartsBehindQuestions(Backend.ConfirmEffect(db, inp, s).db.sessions)
  {
    SaveKeeps(db.sessions, s.(cart := [], state := Menu, lastOrderId := Some(OrderId(inp))));
  }

  /** The questions advance only for a session that already fits, and "confirmar" empties the cart on the way back to MENU. */
  lemma CheckoutKeeps(db: Db, inp: Input, s: Session)
    requires CartsBehindQuestions(db.sessions) && Fits(s)
    ensures CartsBehindQuestions(Backend.CheckoutEffect(db, inp, s).db.sessions)
  {
    if Text(inp) == "checkout" {
      if s.cart != [] {
        SaveKeeps(db.sessions, s.(state := AskName));
      }
    } else if s.state == AskName && !IsReserved(Text(inp)) {
      NameKeeps(db, inp, s);
    } else {
      KeepsPastName(db, inp, s);
    }
  }

  lemma NameKeeps(db: Db, inp: Input, s: Session)
    requires CartsBehindQuestions(db.sessions) && Fits(s)
    requires Text(inp) != "checkout" && s.state == AskName && !IsReserved(Text(inp))
    ensures CartsBehindQuestions(Backend.CheckoutEffect(db, inp, s).db.sessions)
  {
    SaveKeeps(db.sessions, s.(state := AskContact, data := s.data.(name := Some(Body(inp)))));
  }

  lemma KeepsPastName(db: Db, inp: Input, s: Session)
    requires CartsBehindQuestions(db.sessions) && Fits(s)
    requires Text(inp) != "checkout" && !(s.state == AskName && !IsReserved(Text(inp)))
    ensures CartsBehindQuestions(Backend.CheckoutEffect(db, inp, s).db.sessions)
  {
    if s.state == AskContact && !IsReserved(Text(inp)) {
      SaveKeeps(db.sessions, s.(state := Ready, data := s.data.(contact := Some(Body(inp)))));
    } else if Text(inp) == "confirmar" && s.state == Ready {
      ConfirmKeeps(db, inp, s);
    } else {
      SaveKeeps(db.sessions, s);
    }
  }

  /** What the AI branch leaves in the store: nothing, the counted call, or that and a later branch's changes. */
  lemma AiStores(db: Db, cfg: Config, inp: Input, s: Session)
    ensures var e := Backend.AiEffect(db, cfg, inp, s);
      match Decide(cfg, s.data, Today(inp), true)
      case Granted(d) =>
        e.db == db || e.db == SaveTo(db, s.(data := d)) || e.db == Backend.CheckoutEffect(SaveTo(db, s.(data := d)), inp, s.(data := d)).db
      case _ => e.db == db
  {
    match Decide(cfg, s.data, Today(inp), true)
    case Granted(d) =>
      var e := Backend.AiEffect(db, cfg, inp, s);
      var s1 := s.(data := d);
      if Backend.CompanyOf(db, s).None? || inp.aiAnswer.None? {
        assert e.db == db;
      } else if Trim(inp.aiAnswer.value) != "" {
        assert e.db == SaveTo(db, s1);
      } else {
        assert e.db == Backend.CheckoutEffect(SaveTo(db, s1), inp, s1).db;
      }
    case _ =>
  }

  lemma AiKeeps(db: Db, cfg: Config, inp: Input, s: Session)
    requires CartsBehindQuestions(db.sessions) && Fits(s)
    ensures CartsBehindQuestions(Backend.AiEffect(db, cfg, inp, s).db.sessions)
  {
    AiStores(db, cfg, inp, s);
    match Decide(cfg, s.data, Today(inp), true)
    case Unavailable =>
    case Exhausted =>
    case Granted(d) =>
      var s1 := s.(data := d);
      SaveKeeps(db.sessions, s1);
      CheckoutKeeps(SaveTo(db, s1), inp, s1);
  }

  lemma AdminKeeps(db: Db, cfg: Config, inp: Input)
    requires CartsBehindQuestions(db.sessions)
    ensures CartsBehindQuestions(Backend.AdminEffect(db, cfg, inp).db.sessions)
  {
    var cmd := Cmd(inp);
    if IsAdmin(cfg.adminNumber, From(inp)) && cmd != "admin whoami" && cmd != "admin company list" {
      CommandKeeps(db, cfg, inp);
    }
  }

  lemma CommandKeeps(db: Db, cfg: Config, inp: Input)
    requires CartsBehindQuestions(db.sessions)
    requires IsAdmin(cfg.adminNumber, From(inp)) && Cmd(inp) != "admin whoami" && Cmd(inp) != "admin company list"
    ensures CartsBehindQuestions(Backend.AdminEffect(db, cfg, inp).db.sessions)
  {
    var cmd := Cmd(inp);
    if ParseCompanySet(cmd).Some? {
      CompanySetKeeps(db, inp, ParseCompanySet(cmd).value.0, ParseCompanySet(cmd).value.1);
    } else if ParseAiSet(cmd).Some? {
      AiSetKeeps(db, ParseAiSet(cmd).value.0, ParseAiSet(cmd).value.1);
    }
  }

  /** "admin company set" rewrites the target's company and keeps its state and cart. */
  lemma CompanySetKeeps(db: Db, inp: Input, rawId: string, arg: string)
    requires CartsBehindQuestions(db.sessions)
    ensures CartsBehindQuestions(Backend.CompanySetEffect(db, inp, rawId, arg).db.sessions)
  {
    var t := Backend.TargetOf(db, arg);
    if FindCompany(db.companies, Lower(rawId)).Some? && t != "" {
      var s2 := Backend.GetSession(db.sessions, NormalizeTarget(t));
      GetSessionFits(db.sessions, NormalizeTarget(t));
      SaveKeeps(db.sessions, s2.(data := s2.data.(companyId := Lower(rawId))));
    }
  }

  lemma AiSetKeeps(db: Db, mode: string, arg: string)
    requires CartsBehindQuestions(db.sessions)
    ensures CartsBehindQuestions(Backend.AiSetEffect(db, mode, arg).db.sessions)
  {
    var t := Backend.TargetOf(db, arg);
    if t != "" {
      var s2 := Backend.GetSession(db.sessions, NormalizeTarget(t));
      GetSessionFits(db.sessions, NormalizeTarget(t));
      SaveKeeps(db.sessions, s2.(data := s2.data.(aiMode := Lower(mode))));
    }
  }

  lemma DispatchKeeps(db: Db, cfg: Config, inp: Input, s: Session)
    requires CartsBehindQuestions(db.sessions) && Fits(s)
    ensures CartsBehindQuestions(Backend.DispatchEffect(db, cfg, inp, s).db.sessions)
  {
    if IsHumanTrigger(Text(inp)) {
      RouteTrigger(db, cfg, inp, s);
      HandOffKeeps(db, inp, s);
    } else if IsAdminCommand(inp) {
      AdminReachesGate(db, cfg, inp, s);
      AdminKeeps(db, cfg, inp);
    } else {
      KeepsPastAdmin(db, cfg, inp, s);
    }
  }

  lemma KeepsPastAdmin(db: Db, cfg: Config, inp: Input, s: Session)
    requires CartsBehindQuestions(db.sessions) && Fits(s)
    requires !IsHumanTrigger(Text(inp)) && !IsAdminCommand(inp)
    ensures CartsBehindQuestions(Backend.DispatchEffect(db, cfg, inp, s).db.sessions)
  {
    var t := Text(inp);
    if t == "menu" || t == "hola" {
      MenuWord(db, cfg, inp, s);
      MenuKeeps(db, s);
    } else if s.state == Human {
      RouteHumanWait(db, cfg, inp, s);
    } else {
      KeepsPastHuman(db, cfg, inp, s);
    }
  }

  lemma KeepsPastHuman(db: Db, cfg: Config, inp: Input, s: Session)
    requires CartsBehindQuestions(db.sessions) && Fits(s)
    requires !IsHumanTrigger(Text(inp)) && !IsAdminCommand(inp) && s.state != Human
    requires Text(inp) != "menu" && Text(inp) != "hola"
    ensures CartsBehindQuestions(Backend.DispatchEffect(db, cfg, inp, s).db.sessions)
  {
    var t := Text(inp);
    if t == "catalogo" || t == "carrito" {
      RouteView(db, cfg, inp, s);
    } else if ParseAdd(t).Some? {
      AddTurnKeeps(db, cfg, inp, s);
    } else {
      KeepsPastAdd(db, cfg, inp, s);
    }
  }

  lemma AddTurnKeeps(db: Db, cfg: Config, inp: Input, s: Session)
    requires CartsBehindQuestions(db.sessions)
    requires s.state != Human && ParseAdd(Text(inp)).Some?
    ensures CartsBehindQuestions(Backend.DispatchEffect(db, cfg, inp, s).db.sessions)
  {
    RouteAdd(db, cfg, inp, s, ParseAdd(Text(inp)).value);
    AddKeeps(db, s, ParseAdd(Text(inp)).value);
  }

  lemma KeepsPastAdd(db: Db, cfg: Config, inp: Input, s: Session)
    requires CartsBehindQuestions(db.sessions) && Fits(s)
    requires !IsHumanTrigger(Text(inp)) && !IsAdminCommand(inp) && s.state != Human
    requires Text(inp) != "menu" && Text(inp) != "hola" && Text(inp) != "catalogo" && Text(inp) != "carrito"
    requires ParseAdd(Text(inp)).None?
    ensures CartsBehindQuestions(Backend.DispatchEffect(db, cfg, inp, s).db.sessions)
  {
    if Enrolled(s.data.aiMode, true) && s.state == Menu && !IsReserved(Text(inp)) {
      RouteAi(db, cfg, inp, s);
      AiKeeps(db, cfg, inp, s);
    } else {
      ReachesCheckout(db, cfg, inp, s);
      CheckoutKeeps(db, inp, s);
    }
  }

  /** The prologue loads a fitting session and stores it back unchanged but for its company. */
  lemma PrologueKeeps(db: Db, inp: Input)
    requires CartsBehindQuestions(db.sessions)
    ensures CartsBehindQuestions(Loaded(db, inp).sessions) && Fits(SessionOf(db, inp))
  {
    TenantOverride(db, inp);
    var db1 := RememberCustomer(db, inp);
    assert db1.sessions == db.sessions;
    GetSessionFits(db.sessions, From(inp));
    if From(inp) in db1.customerCompany && db1.customerCompany[From(inp)].companyId != "" {
      SaveKeeps(db.sessions, SessionOf(db, inp));
    }
  }

  /**
    Every turn keeps the invariant: a session in ASK_NAME, ASK_CONTACT or
    READY has a non-empty cart, so "confirmar" never places an empty order.
   */
  lemma TurnKeepsCarts(db: Db, cfg: Config, inp: Input)
    requires CartsBehindQuestions(db.sessions)
    ensures CartsBehindQuestions(Backend.TurnEffect(db, cfg, inp).db.sessions)
  {
    TurnIsDispatch(db, cfg, inp);
    PrologueKeeps(db, inp);
    DispatchKeeps(Loaded(db, inp), cfg, inp, SessionOf(db, inp));
  }

  /** POST /api/assignments rewrites a stored row's company only, so it keeps the invariant too. */
  lemma AssignmentKeepsCarts(db: Db, rawFrom: string, rawCompany: string, now: string)
    requires CartsBehindQuestions(db.sessions)
    ensures CartsBehindQuestions(Backend.AssignEffect(db, rawFrom, rawCompany, now).0.sessions)
  {
    var from := NormalizeTarget(Trim(rawFrom));
    if FindCompany(db.companies, Trim(rawCompany)).Some? && from in db.sessions {
      var row := db.sessions[from];
      RowDataKeeps(db.sessions, from, row.(data := row.data.(companyId := Some(Trim(rawCompany)))));
    }
  }

  /** Rewriting a row's data bag, its state and cart untouched, keeps the invariant. */
  lemma RowDataKeeps(sessions: map<string, SessionRow>, k: string, row: SessionRow)
    requires CartsBehindQuestions(sessions) && k in sessions
    requires row.state == sessions[k].state && row.cart == sessions[k].cart
    ensures CartsBehindQuestions(sessions[k := row])
  {
  }

  /** In READY the order placed by "confirmar" has at least one item. */
  lemma ConfirmedOrderIsNotEmpty(db: Db, inp: Input, s: Session)
    requires s.state == Ready && Fits(s)
    requires Backend.ConfirmEffect(db, inp, s).reply.Some?
    ensures var id := OrderId(inp);
      id in Backend.ConfirmEffect(db, inp, s).db.orders && Backend.ConfirmEffect(db, inp, s).db.orders[id].items != []
  {
  }

  // The handler answers.

  /**
    What makes a turn able to finish: the fallback company exists, the drawn
    order id is free and the model, should it be asked, does not reject.
   */
  predicate CanAnswer(db: Db, inp: Input) {
    HasDefaultCompany(db.companies) && OrderId(inp) !in db.orders && inp.aiAnswer.Some?
  }

  lemma HandOffAnswers(db: Db, inp: Input, s: Session)
    requires CanAnswer(db, inp)
    ensures Backend.HandOffEffect(db, inp, s).reply.Some?
  {
    var s1 := s.(state := Human, data := s.data.(humanNotified := true));
    CompanyFound(SaveTo(db, s1), s1);
  }

  lemma MenuAnswers(db: Db, inp: Input, s: Session)
    requires CanAnswer(db, inp)
    ensures Backend.MenuEffect(db, s).reply.Some?
  {
    var s1 := s.(state := Menu, data := s.data.(humanNotified := false));
    CompanyFound(SaveTo(db, s1), s1);
  }

  lemma ConfirmAnswers(db: Db, inp: Input, s: Session)
    requires CanAnswer(db, inp)
    ensures Backend.ConfirmEffect(db, inp, s).reply.Some?
  {
    CompanyFound(db, s);
  }

  lemma CheckoutAnswers(db: Db, inp: Input, s: Session)
    requires CanAnswer(db, inp)
    ensures Backend.CheckoutEffect(db, inp, s).reply.Some?
  {
    if Text(inp) == "checkout" {
    } else if s.state == AskName && !IsReserved(Text(inp)) {
    } else {
      AnswersPastName(db, inp, s);
    }
  }

  lemma AnswersPastName(db: Db, inp: Input, s: Session)
    requires CanAnswer(db, inp)
    requires Text(inp) != "checkout" && !(s.state == AskName && !IsReserved(Text(inp)))
    ensures Backend.CheckoutEffect(db, inp, s).reply.Some?
  {
    if s.state == AskContact && !IsReserved(Text(inp)) {
      var s1 := s.(state := Ready, data := s.data.(contact := Some(Body(inp))));
      CompanyFound(SaveTo(db, s1), s1);
    } else if Text(inp) == "confirmar" && s.state == Ready {
      ConfirmAnswers(db, inp, s);
    }
  }

  lemma AiAnswers(db: Db, cfg: Config, inp: Input, s: Session)
    requires CanAnswer(db, inp)
    ensures Backend.AiEffect(db, cfg, inp, s).reply.Some?
  {
    CompanyFound(db, s);
    match Decide(cfg, s.data, Today(inp), true)
    case Unavailable =>
    case Exhausted =>
    case Granted(d) =>
      CheckoutAnswers(SaveTo(db, s.(data := d)), inp, s.(data := d));
  }

  lemma AdminAnswers(db: Db, cfg: Config, inp: Input)
    ensures Backend.AdminEffect(db, cfg, inp).reply.Some?
  {
    var cmd := Cmd(inp);
    if IsAdmin(cfg.adminNumber, From(inp)) && cmd != "admin whoami" && cmd != "admin company list" {
      CommandAnswers(db, cfg, inp);
    }
  }

  lemma CommandAnswers(db: Db, cfg: Config, inp: Input)
    requires IsAdmin(cfg.adminNumber, From(inp)) && Cmd(inp) != "admin whoami" && Cmd(inp) != "admin company list"
    ensures Backend.AdminEffect(db, cfg, inp).reply.Some?
  {
    var cmd := Cmd(inp);
    if ParseCompanySet(cmd).Some? {
      CompanySetAnswers(db, inp, ParseCompanySet(cmd).value.0, ParseCompanySet(cmd).value.1);
    } else if ParseAiSet(cmd).Some? {
      AiSetAnswers(db, ParseAiSet(cmd).value.0, ParseAiSet(cmd).value.1);
    }
  }

  lemma CompanySetAnswers(db: Db, inp: Input, rawId: string, arg: string)
    ensures Backend.CompanySetEffect(db, inp, rawId, arg).reply.Some?
  {
  }

  lemma AiSetAnswers(db: Db, mode: string, arg: string)
    ensures Backend.AiSetEffect(db, mode, arg).reply.Some?
  {
  }

  lemma DispatchAnswers(db: Db, cfg: Config, inp: Input, s: Session)
    requires CanAnswer(db, inp)
    ensures Backend.DispatchEffect(db, cfg, inp, s).reply.Some?
  {
    if IsHumanTrigger(Text(inp)) {
      RouteTrigger(db, cfg, inp, s);
      HandOffAnswers(db, inp, s);
    } else if IsAdminCommand(inp) {
      AdminReachesGate(db, cfg, inp, s);
      AdminAnswers(db, cfg, inp);
    } else if Text(inp) == "menu" || Text(inp) == "hola" {
      MenuWord(db, cfg, inp, s);
      MenuAnswers(db, inp, s);
    } else if s.state == Human {
      RouteHumanWait(db, cfg, inp, s);
    } else {
      AnswersPastHuman(db, cfg, inp, s);
    }
  }

  lemma AnswersPastHuman(db: Db, cfg: Config, inp: Input, s: Session)
    requires CanAnswer(db, inp)
    requires !IsHumanTrigger(Text(inp)) && !IsAdminCommand(inp) && s.state != Human
    requires Text(inp) != "menu" && Text(inp) != "hola"
    ensures Backend.DispatchEffect(db, cfg, inp, s).reply.Some?
  {
    if Text(inp) == "catalogo" {
      CatalogoAnswers(db, cfg, inp, s);
    } else {
      AnswersPastCatalogo(db, cfg, inp, s);
    }
  }

  lemma AnswersPastCatalogo(db: Db, cfg: Config, inp: Input, s: Session)
    requires CanAnswer(db, inp)
    requires !IsHumanTrigger(Text(inp)) && !IsAdminCommand(inp) && s.state != Human
    requires Text(inp) != "menu" && Text(inp) != "hola" && Text(inp) != "catalogo"
    ensures Backend.DispatchEffect(db, cfg, inp, s).reply.Some?
  {
    if Text(inp) == "carrito" {
      CarritoAnswers(db, cfg, inp, s);
    } else {
      AnswersPastView(db, cfg, inp, s);
    }
  }

  lemma AnswersPastView(db: Db, cfg: Config, inp: Input, s: Session)
    requires CanAnswer(db, inp)
    requires !IsHumanTrigger(Text(inp)) && !IsAdminCommand(inp) && s.state != Human
    requires Text(inp) != "menu" && Text(inp) != "hola" && Text(inp) != "catalogo" && Text(inp) != "carrito"
    ensures Backend.DispatchEffect(db, cfg, inp, s).reply.Some?
  {
    if ParseAdd(Text(inp)).Some? {
      RouteAdd(db, cfg, inp, s, ParseAdd(Text(inp)).value);
      CompanyFound(db, s);
    } else {
      AnswersPastAdd(db, cfg, inp, s);
    }
  }

  lemma CarritoAnswers(db: Db, cfg: Config, inp: Input, s: Session)
    requires HasDefaultCompany(db.companies)
    requires Text(inp) == "carrito" && s.state != Human
    ensures Backend.DispatchEffect(db, cfg, inp, s).reply.Some?
  {
    RouteCarrito(db, cfg, inp, s);
    CompanyFound(db, s);
  }

  lemma CatalogoAnswers(db: Db, cfg: Config, inp: Input, s: Session)
    requires HasDefaultCompany(db.companies)
    requires Text(inp) == "catalogo" && s.state != Human
    ensures Backend.DispatchEffect(db, cfg, inp, s).reply.Some?
  {
    RouteCatalogo(db, cfg, inp, s);
    CompanyFound(db, s);
  }

  lemma AnswersPastAdd(db: Db, cfg: Config, inp: Input, s: Session)
    requires CanAnswer(db, inp)
    requires !IsHumanTrigger(Text(inp)) && !IsAdminCommand(inp) && s.state != Human
    requires Text(inp) != "menu" && Text(inp) != "hola" && Text(inp) != "catalogo" && Text(inp) != "carrito"
    requires ParseAdd(Text(inp)).None?
    ensures Backend.DispatchEffect(db, cfg, inp, s).reply.Some?
  {
    if Enrolled(s.data.aiMode, true) && s.state == Menu && !IsReserved(Text(inp)) {
      RouteAi(db, cfg, inp, s);
      AiAnswers(db, cfg, inp, s);
    } else {
      ReachesCheckout(db, cfg, inp, s);
      CheckoutAnswers(db, inp, s);
    }
  }

  /**
    The backend handler throws only when no company can be found (the
    fallback company is missing too), the drawn order id is already in
    `orders` or the model's request rejects: otherwise every turn sends
    exactly one reply. Every cart is
    rendered with unknown ids priced at 0, so a cart never makes it throw.
   */
  lemma TurnAnswers(db: Db, cfg: Config, inp: Input)
    requires CanAnswer(db, inp)
    ensures Backend.TurnEffect(db, cfg, inp).reply.Some?
  {
    TurnIsDispatch(db, cfg, inp);
    PrologueWrites(db, inp);
    DispatchAnswers(Loaded(db, inp), cfg, inp, SessionOf(db, inp));
  }

  /**
    "carrito" outside HUMAN writes nothing and, whenever a company is found,
    shows the cart: ids missing from the catalog are priced at 0 and named
    "Producto", so a cart filled under another company still renders.
   */
  lemma CarritoAlwaysAnswers(db: Db, cfg: Config, inp: Input)
    requires Text(inp) == "carrito" && SessionOf(db, inp).state != Human && HasDefaultCompany(db.companies)
    ensures var e := Backend.TurnEffect(db, cfg, inp);
      var s := SessionOf(db, inp);
      && e.db == Loaded(db, inp)
      && e.reply == CartView(Backend.CompanyOf(db, s), s.cart, false)
      && e.reply.Some?
  {
    TurnIsDispatch(db, cfg, inp);
    PrologueWrites(db, inp);
    var s := SessionOf(db, inp);
    RouteCarrito(Loaded(db, inp), cfg, inp, s);
    CompanyFound(Loaded(db, inp), s);
  }
}
