/**
  The bot's durable tables (companies, customer_company, sessions, settings,
  orders) and the records they hold, as both revisions of the webhook read and
  write them. JSON columns (cartJson, dataJson, catalogJson, itemsJson,
  itemsDetailedJson) are held already parsed.
 */
module Tables {
  import opened Options
  import opened Strings

  const DefaultCompanyId: string := "babystepsbots"

  // The values the webhook writes into `sessions.state`.
  const Menu: string := "MENU"
  const Human: string := "HUMAN"
  const AskName: string := "ASK_NAME"
  const AskContact: string := "ASK_CONTACT"
  const Ready: string := "READY"

  const LastCustomerKey: string := "last_customer"

  /** One entry of a company's catalog; prices are whole pesos. */
  datatype Product = Product(id: nat, name: string, price: int)

  /** A row of `companies` with its catalog parsed. */
  datatype Company = Company(id: string, name: string, prompt: string, catalog: seq<Product>)

  /** A session's `dataJson` as stored: any key may be absent. */
  datatype StoredData = StoredData(
    companyId: Option<string>,
    aiMode: Option<string>,
    aiCount: Option<int>,
    aiCountDate: Option<string>,
    lastAiAt: Option<int>,
    humanNotified: Option<bool>,
    name: Option<string>,
    contact: Option<string>)

  /** A session's data bag once the defaults are filled in. */
  datatype Data = Data(
    companyId: string,
    aiMode: string,
    aiCount: int,
    aiCountDate: string,
    lastAiAt: int,
    humanNotified: bool,
    name: Option<string>,
    contact: Option<string>)

  /** A row of `sessions`, keyed by the customer's number. */
  datatype SessionRow = SessionRow(state: string, cart: seq<nat>, data: StoredData, lastOrderId: Option<string>)

  /** The session object a turn works on. */
  datatype Session = Session(fromNumber: string, state: string, cart: seq<nat>, data: Data, lastOrderId: Option<string>)

  /** A row of `customer_company`, keyed by the customer's number. */
  datatype Assignment = Assignment(companyId: string, updatedAt: string)

  /** One entry of an order's `itemsDetailed`. */
  datatype LineItem = LineItem(id: nat, name: string, qty: nat, unit: int, subtotal: int)

  /** A row of `orders`. */
  datatype Order = Order(
    id: string,
    createdAt: string,
    fromNumber: string,
    companyId: string,
    name: Option<string>,
    contact: Option<string>,
    notes: string,
    items: seq<nat>,
    itemsDetailed: seq<LineItem>,
    total: int,
    paymentStatus: string,
    paymentMethod: string,
    orderStatus: string,
    deliveredAt: Option<string>)

  /** The whole store at one instant; `outbox` logs the operator notifications sent. */
  datatype Db = Db(
    sessions: map<string, SessionRow>,
    companies: seq<Company>,
    customerCompany: map<string, Assignment>,
    settings: map<string, string>,
    orders: map<string, Order>,
    outbox: seq<string>)

  /** The deployment's environment. `aiGlobal` is `AI_GLOBAL` as the source normalises it. */
  datatype Config = Config(adminNumber: string, hasApiKey: bool, aiGlobal: string)

  /** The OpenAI client exists and AI is not switched off globally. */
  predicate AiEnabled(cfg: Config) {
    cfg.hasApiKey && cfg.aiGlobal != "off"
  }

  /** The defaults `getSession` starts from. */
  function DefaultData(): Data {
    Data(DefaultCompanyId, "off", 0, "", 0, false, None, None)
  }

  /** `{ ...base, ...stored }`: stored keys override the defaults, missing ones are filled. */
  function MergeData(sd: StoredData): (d: Data)
    ensures sd == StoredData(None, None, None, None, None, None, None, None) ==> d == DefaultData()
  {
    var base := DefaultData();
    Data(sd.companyId.GetOr(base.companyId), sd.aiMode.GetOr(base.aiMode), sd.aiCount.GetOr(base.aiCount),
         sd.aiCountDate.GetOr(base.aiCountDate), sd.lastAiAt.GetOr(base.lastAiAt),
         sd.humanNotified.GetOr(base.humanNotified), sd.name, sd.contact)
  }

  /**
    Key by key: a stored key wins, a missing one takes the default, and the
    keys without a default stay as they are.
   */
  lemma MergeKeys(sd: StoredData)
    ensures var d := MergeData(sd);
      && (sd.companyId.Some? ==> d.companyId == sd.companyId.value)
      && (sd.aiMode.Some? ==> d.aiMode == sd.aiMode.value)
      && (sd.aiCount.Some? ==> d.aiCount == sd.aiCount.value)
      && (sd.aiCountDate.Some? ==> d.aiCountDate == sd.aiCountDate.value)
      && (sd.lastAiAt.Some? ==> d.lastAiAt == sd.lastAiAt.value)
      && (sd.humanNotified.Some? ==> d.humanNotified == sd.humanNotified.value)
      && (sd.companyId.None? ==> d.companyId == DefaultData().companyId)
      && (sd.aiMode.None? ==> d.aiMode == DefaultData().aiMode)
      && (sd.aiCount.None? ==> d.aiCount == DefaultData().aiCount)
      && (sd.aiCountDate.None? ==> d.aiCountDate == DefaultData().aiCountDate)
      && (sd.lastAiAt.None? ==> d.lastAiAt == DefaultData().lastAiAt)
      && (sd.humanNotified.None? ==> d.humanNotified == DefaultData().humanNotified)
      && d.name == sd.name && d.contact == sd.contact
  {
  }

  /** `JSON.stringify(s.data)`: every filled key is written. */
  function StoreData(d: Data): StoredData {
    StoredData(Some(d.companyId), Some(d.aiMode), Some(d.aiCount), Some(d.aiCountDate),
               Some(d.lastAiAt), Some(d.humanNotified), d.name, d.contact)
  }

  /** Writing a data bag and reading it back with the defaults gives the same bag. */
  lemma DataRoundTrip(d: Data)
    ensures MergeData(StoreData(d)) == d
  {
  }

  function ToRow(s: Session): SessionRow {
    SessionRow(s.state, s.cart, StoreData(s.data), s.lastOrderId)
  }

  /** `saveSession`: upsert of the session's row. */
  function Save(sessions: map<string, SessionRow>, s: Session): (r: map<string, SessionRow>)
    ensures r.Keys == sessions.Keys + {s.fromNumber}
    ensures r[s.fromNumber] == ToRow(s)
    ensures r[s.fromNumber].state == s.state && r[s.fromNumber].cart == s.cart
    ensures forall k :: k in sessions && k != s.fromNumber ==> r[k] == sessions[k]
  {
    sessions[s.fromNumber := ToRow(s)]
  }

  /** Every row but `k` is left as it was. */
  predicate OnlyRow(before: map<string, SessionRow>, after: map<string, SessionRow>, k: string) {
    forall j :: j in before && j != k ==> j in after && after[j] == before[j]
  }

  /** An upsert touches no other customer's row. */
  lemma SaveOnly(sessions: map<string, SessionRow>, s: Session)
    ensures OnlyRow(sessions, Save(sessions, s), s.fromNumber)
  {
  }

  /** `catalog.find(x => Number(x.id) === id)`: the first product with that id. */
  function FindProduct(catalog: seq<Product>, id: nat): (r: Option<Product>)
    ensures r.Some? ==> r.value in catalog && r.value.id == id
    ensures r.None? <==> forall i :: 0 <= i < |catalog| ==> catalog[i].id != id
    ensures r.Some? ==>
      exists i ::
        && 0 <= i < |catalog| && catalog[i] == r.value
        && forall j :: 0 <= j < i ==> catalog[j].id != id
  {
    if catalog == [] then None
    else if catalog[0].id == id then Some(catalog[0])
    else
      var r := FindProduct(catalog[1..], id);
      assert r.Some? ==>
        exists i ::
          && 1 <= i < |catalog| && catalog[i] == r.value
          && forall j :: 0 <= j < i ==> catalog[j].id != id
      by {
        if r.Some? {
          var i :| 0 <= i < |catalog[1..]| && catalog[1..][i] == r.value &&
            forall j :: 0 <= j < i ==> catalog[1..][j].id != id;
          assert forall j :: 0 <= j < i + 1 ==> catalog[j].id != id by {
            forall j | 0 <= j < i + 1 ensures catalog[j].id != id {
              if j > 0 { assert catalog[j] == catalog[1..][j - 1]; }
            }
          }
        }
      }
      r
  }

  /** `SELECT * FROM companies WHERE id=?`. */
  function FindCompany(companies: seq<Company>, id: string): (r: Option<Company>)
    ensures r.Some? ==> r.value in companies && r.value.id == id
    ensures r.None? <==> forall i :: 0 <= i < |companies| ==> companies[i].id != id
  {
    if companies == [] then None
    else if companies[0].id == id then Some(companies[0])
    else FindCompany(companies[1..], id)
  }

  /** The seeded default company is still in the table. */
  predicate HasDefaultCompany(companies: seq<Company>) {
    FindCompany(companies, DefaultCompanyId).Some?
  }

  /**
    The id `getCompanySafe` looks up: an empty id means the default company,
    and backend/index.js (`lower`) lowercases it.
   */
  function CompanyKey(companyId: string, lower: bool): string {
    var id := if companyId == "" then DefaultCompanyId else companyId;
    if lower then Lower(id) else id
  }

  /**
    `getCompanySafe`: the session's company, else the default one. `None`
    only when neither row exists, where the callers dereference `null`.
   */
  function CompanySafe(companies: seq<Company>, companyId: string, lower: bool): (r: Option<Company>)
    ensures r.Some? ==> r.value in companies
    ensures r.None? <==> FindCompany(companies, CompanyKey(companyId, lower)).None? && !HasDefaultCompany(companies)
    ensures FindCompany(companies, CompanyKey(companyId, lower)).Some? ==> r.Some? && r.value.id == CompanyKey(companyId, lower)
    ensures FindCompany(companies, CompanyKey(companyId, lower)).None? && r.Some? ==> r.value.id == DefaultCompanyId
  {
    match FindCompany(companies, CompanyKey(companyId, lower))
    case Some(c) => Some(c)
    case None => FindCompany(companies, DefaultCompanyId)
  }

  /** `getSetting` in backend/index.js; a missing key reads as "". */
  function GetSetting(settings: map<string, string>, key: string): string {
    if key in settings then settings[key] else ""
  }

  predicate IsHumanTrigger(t: string) {
    t == "humano" || t == "asesor" || t == "hablar con humano"
  }

  function MenuText(c: Company): string {
    "👋 Hola! Soy el asistente de " + c.name + "\n• catalogo\n• carrito\n• checkout\n• humano"
  }

  function CatalogLine(p: Product): string {
    NatToString(p.id) + ") " + p.name + " — $" + IntToString(p.price)
  }

  function CatalogLines(catalog: seq<Product>): (r: seq<string>)
    ensures |r| == |catalog|
    ensures forall i :: 0 <= i < |catalog| ==> r[i] == CatalogLine(catalog[i])
  {
    seq(|catalog|, i requires 0 <= i < |catalog| => CatalogLine(catalog[i]))
  }

  function CatalogText(c: Company): string {
    "🛒 " + c.name + "\n" + Join(CatalogLines(c.catalog), "\n")
  }

  // Lexicographic order on ids, which is SQLite's BINARY collation on UTF-8 text.

  predicate LexLe(a: string, b: string) {
    a == [] || (b != [] && (a[0] < b[0] || (a[0] == b[0] && LexLe(a[1..], b[1..]))))
  }

  lemma {:induction false} LexTotal(a: string, b: string)
    ensures LexLe(a, b) || LexLe(b, a)
  {
    if a != [] && b != [] && a[0] == b[0] {
      LexTotal(a[1..], b[1..]);
    }
  }

  predicate SortedById(cs: seq<Company>) {
    forall i :: 0 <= i < |cs| - 1 ==> LexLe(cs[i].id, cs[i + 1].id)
  }

  function InsertById(c: Company, cs: seq<Company>): (r: seq<Company>)
    requires SortedById(cs)
    ensures SortedById(r)
    ensures multiset(r) == multiset(cs) + multiset{c}
    ensures r[0] == c || (cs != [] && r[0] == cs[0])
  {
    if cs == [] then [c]
    else if LexLe(c.id, cs[0].id) then [c] + cs
    else
      LexTotal(c.id, cs[0].id);
      var rest := InsertById(c, cs[1..]);
      assert cs == [cs[0]] + cs[1..];
      SortedCons(cs[0], rest);
      [cs[0]] + rest
  }

  lemma SortedCons(c: Company, cs: seq<Company>)
    requires SortedById(cs) && (cs == [] || LexLe(c.id, cs[0].id))
    ensures SortedById([c] + cs)
  {
  }

  /** `ORDER BY id`: the rows sorted by id, none lost or added. */
  function SortById(cs: seq<Company>): (r: seq<Company>)
    ensures SortedById(r)
    ensures multiset(r) == multiset(cs)
  {
    if cs == [] then []
    else
      assert cs == [cs[0]] + cs[1..];
      InsertById(cs[0], SortById(cs[1..]))
  }

  function CompanyListLine(c: Company): string {
    "• " + c.id + " — " + c.name
  }

  /** The reply to "admin company list" for the rows in the order the query returns them. */
  function CompanyListText(rows: seq<Company>): string {
    if rows == [] then "No hay empresas."
    else "📋 Empresas:\n" + Join(seq(|rows|, i requires 0 <= i < |rows| => CompanyListLine(rows[i])), "\n")
  }

  /** The database connection shared by the handlers. */
  class Store {
    var sessions: map<string, SessionRow>
    var companies: seq<Company>
    var customerCompany: map<string, Assignment>
    var settings: map<string, string>
    var orders: map<string, Order>
    var outbox: seq<string>

    function Snapshot(): Db
      reads this
    {
      Db(sessions, companies, customerCompany, settings, orders, outbox)
    }

    /** The database after the migrations and the two seeded companies. */
    constructor (seeded: seq<Company>)
      requires HasDefaultCompany(seeded)
      ensures Snapshot() == Db(map[], seeded, map[], map[], map[], [])
    {
      sessions, companies, customerCompany, settings, orders, outbox := map[], seeded, map[], map[], map[], [];
    }

    /** `saveSession(s)`. */
    method SaveSession(s: Session)
      modifies this
      ensures Snapshot() == old(Snapshot()).(sessions := Save(old(sessions), s))
    {
      sessions := sessions[s.fromNumber := ToRow(s)];
    }

    /** `setSetting(k, v)`. */
    method SetSetting(key: string, value: string)
      modifies this
      ensures Snapshot() == old(Snapshot()).(settings := old(settings)[key := value])
    {
      settings := settings[key := value];
    }

    /** The notification adapter: the message is recorded, delivery is not modelled. */
    method Notify(message: string)
      modifies this
      ensures Snapshot() == old(Snapshot()).(outbox := old(outbox) + [message])
    {
      outbox := outbox + [message];
    }

    /** `INSERT INTO orders`; a taken id violates the primary key and inserts nothing. */
    method InsertOrder(o: Order) returns (ok: bool)
      modifies this
      ensures ok == (o.id !in old(orders))
      ensures Snapshot() == if ok then old(Snapshot()).(orders := old(orders)[o.id := o]) else old(Snapshot())
    {
      ok := o.id !in orders;
      if ok {
        orders := orders[o.id := o];
      }
    }

    /** `UPDATE sessions SET dataJson=? WHERE fromNumber=?`: no row, no change. */
    method UpdateStoredData(fromNumber: string, data: StoredData)
      modifies this
      ensures Snapshot() == old(Snapshot()).(sessions :=
        if fromNumber in old(sessions) then old(sessions)[fromNumber := old(sessions)[fromNumber].(data := data)]
        else old(sessions))
    {
      if fromNumber in sessions {
        sessions := sessions[fromNumber := sessions[fromNumber].(data := data)];
      }
    }

    /** Upsert into `customer_company`. */
    method UpsertAssignment(fromNumber: string, a: Assignment)
      modifies this
      ensures Snapshot() == old(Snapshot()).(customerCompany := old(customerCompany)[fromNumber := a])
    {
      customerCompany := customerCompany[fromNumber := a];
    }
  }
}
