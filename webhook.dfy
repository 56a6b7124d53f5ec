/**
  What one POST to `/whatsapp` carries in and what it leaves behind, shared by
  both revisions of the handler: the request with the values the handler
  takes from outside (the clock, the random order-id suffix and the model's
  answer), the values it derives from `From` and `Body`, the outcome of a
  turn, and the reply texts both revisions use.
 */
module Webhook {
  import opened Options
  import opened Strings
  import opened Tables

  /**
    `rawFrom` and `rawBody` are Twilio's `From` and `Body`; `now` is
    `new Date().toISOString()`; `orderSuffix` is the random part of
    `newOrderId()`; `aiAnswer` is `resp.output_text` should the model be asked,
    and `None` when `openai.responses.create` rejects.
   */
  datatype Input = Input(rawFrom: string, rawBody: string, now: string, orderSuffix: string, aiAnswer: Option<string>)

  /** `req.body.From || "unknown"`. */
  function From(inp: Input): (f: string)
    ensures f != ""
  {
    if inp.rawFrom == "" then "unknown" else inp.rawFrom
  }

  /** `(req.body.Body || "").trim()`. */
  function Body(inp: Input): string {
    Trim(inp.rawBody)
  }

  /** `body.toLowerCase()`, which the word tests compare against. */
  function Text(inp: Input): string {
    Lower(Body(inp))
  }

  /** `body.replace(/\s+/g, " ").toLowerCase()`, which the admin commands are parsed from. */
  function Cmd(inp: Input): string {
    Lower(CollapseSpaces(Body(inp)))
  }

  predicate IsAdminCommand(inp: Input) {
    StartsWith(Cmd(inp), "admin")
  }

  /** Collapsing whitespace keeps a leading run of non-space characters. */
  lemma {:induction false} CollapseKeepsWord(s: string, k: nat)
    requires k <= |CollapseSpaces(s)|
    requires forall i :: 0 <= i < k ==> !IsSpace(CollapseSpaces(s)[i])
    ensures k <= |s| && forall i :: 0 <= i < k ==> s[i] == CollapseSpaces(s)[i]
    decreases k
  {
    if k > 0 {
      var r := CollapseSpaces(s);
      CollapseHead(s);
      var r' := CollapseSpaces(s[1..]);
      forall i | 0 <= i < k - 1
        ensures !IsSpace(r'[i])
      {
        assert r'[i] == r[i + 1];
      }
      CollapseKeepsWord(s[1..], k - 1);
      forall i | 0 <= i < k
        ensures s[i] == r[i]
      {
        if i > 0 {
          assert s[i] == s[1..][i - 1] && r[i] == r'[i - 1];
        }
      }
    }
  }

  /** A collapsed string that starts with a non-space character starts with the original's first character. */
  lemma CollapseHead(s: string)
    requires CollapseSpaces(s) != [] && !IsSpace(CollapseSpaces(s)[0])
    ensures s != [] && !IsSpace(s[0])
    ensures CollapseSpaces(s) == [s[0]] + CollapseSpaces(s[1..])
  {
  }

  /**
    A message taken for an admin command also reads "admin" at the start of
    `text`, so the word branches never see one.
   */
  lemma AdminCommandText(inp: Input)
    requires IsAdminCommand(inp)
    ensures StartsWith(Text(inp), "admin")
  {
    AdminPrefix(Body(inp));
  }

  lemma AdminPrefix(b: string)
    requires StartsWith(Lower(CollapseSpaces(b)), "admin")
    ensures StartsWith(Lower(b), "admin")
  {
    var w := "admin";
    assert w[0] == 'a' && w[1] == 'd' && w[2] == 'm' && w[3] == 'i' && w[4] == 'n';
    CollapsedPrefix(b, w);
  }

  /** A lowercase word at the start of the collapsed, lowercased text is at the start of the lowercased text. */
  lemma CollapsedPrefix(b: string, w: string)
    requires forall i :: 0 <= i < |w| ==> 'a' <= w[i] <= 'z'
    requires StartsWith(Lower(CollapseSpaces(b)), w)
    ensures StartsWith(Lower(b), w)
  {
    var c := CollapseSpaces(b);
    forall i | 0 <= i < |w|
      ensures !IsSpace(c[i]) && LowerChar(c[i]) == w[i]
    {
      assert Lower(c)[i] == Lower(c)[..|w|][i];
      LetterIsNoSpace(w[i]);
      SpaceIsNoLetter(c[i]);
    }
    CollapseKeepsWord(b, |w|);
    assert forall i :: 0 <= i < |w| ==> Lower(b)[i] == w[i];
    assert Lower(b)[..|w|] == w;
  }

  lemma LetterIsNoSpace(ch: char)
    requires 'a' <= ch <= 'z'
    ensures !IsSpace(ch)
  {
  }

  lemma SpaceIsNoLetter(ch: char)
    ensures IsSpace(ch) ==> LowerChar(ch) == ch
  {
  }

  /** `new Date().toISOString().slice(0, 10)`. */
  function Today(inp: Input): string {
    if |inp.now| >= 10 then inp.now[..10] else inp.now
  }

  /** `newOrderId()`: "PED-" and the uppercased random suffix. */
  function OrderId(inp: Input): (id: string)
    ensures |id| >= 4 && id[..4] == "PED-"
  {
    "PED-" + Upper(inp.orderSuffix)
  }

  /**
    The outcome of one turn: the store afterwards, the reply sent (`None`
    when the handler throws and sends none), and whether the model was asked.
   */
  datatype Effect = Effect(db: Db, reply: Option<string>, modelCalled: bool)

  function Reply(db: Db, text: string): Effect {
    Effect(db, Some(text), false)
  }

  function Crash(db: Db): Effect {
    Effect(db, None, false)
  }

  /** "catalogo": the company's catalog, or a throw when the session has no company. */
  function CatalogEffect(db: Db, c: Option<Company>): (e: Effect)
    ensures e.db == db && !e.modelCalled
    ensures e.reply.Some? <==> c.Some?
  {
    match c
    case None => Crash(db)
    case Some(c) => Reply(db, CatalogText(c))
  }

  /** `saveSession(s)` on a store value. */
  function SaveTo(db: Db, s: Session): Db {
    db.(sessions := Save(db.sessions, s))
  }

  /** Saving the same session twice is saving it once. */
  lemma SaveTwice(db: Db, s: Session)
    ensures SaveTo(SaveTo(db, s), s) == SaveTo(db, s)
  {
  }

  /** `setSetting("last_customer", from)` unless the message is an admin command. */
  function RememberCustomer(db: Db, inp: Input): Db {
    if From(inp) != "" && !IsAdminCommand(inp) then db.(settings := db.settings[LastCustomerKey := From(inp)])
    else db
  }

  // Replies both revisions send.

  const DefaultReply: string := "No entendí \U{1F605}. Escribí: menu / catalogo / ayuda"
  const Restricted: string := "\U{26D4} Comando restringido."
  const NoLastCustomer: string := "No tengo 'último cliente' todavía. Hacé que un cliente mande un mensaje primero."
  const NoActiveCustomer: string := "No hay cliente activo."
  const AdminOk: string := "Admin OK"
  const UnknownProduct: string := "Ese producto no existe. Escribí catalogo y elegí una opción válida."
  const AiUnavailable: string := "IA no disponible."
  const AiLimitReached: string := "\U{26A0}\U{FE0F} Límite diario de IA alcanzado. Escribí humano."
  const CheckoutEmpty: string := "Carrito vacío."
  const AskNamePrompt: string := "¿A nombre de quién va el pedido?"
  const AskContactPrompt: string := "Pasame un contacto."

  function WhoAmIReply(from: string): string {
    "ADMIN OK: " + from
  }

  function CompanyMissingReply(id: string): string {
    "No existe la empresa '" + id + "'."
  }

  function CompanySetReply(target: string, c: Company): string {
    "\U{1F3E2} Empresa para " + target + ": " + c.id + " (" + c.name + ") \U{2705}"
  }

  function AiSetReply(mode: string, target: string): string {
    "\U{1F916} IA " + Upper(mode) + " para " + target
  }

  function AiStatusReply(mode: string): string {
    "\U{1F916} IA: " + Upper(if mode == "" then "off" else mode)
  }

  function AddedReply(name: string, cart: string): string {
    "\U{2705} Agregado " + name + "\n\n" + cart + "\n\nPara finalizar: checkout"
  }

  function SummaryReply(cart: string): string {
    "Resumen:\n" + cart + "\nConfirmar: confirmar"
  }

  function ConfirmedReply(orderId: string, total: int): string {
    "\U{1F389} Pedido " + orderId + " confirmado.\nTotal: $" + IntToString(total)
  }
}
