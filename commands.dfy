/**
  The word tests and command parsers of the webhook: the reserved words, the
  human triggers, the admin gate, the admin sub-command regular expressions,
  `agregar <n>`, and the normalisation of an admin command's target number.
  Each parser follows its JavaScript regular expression, backtracking
  included, and returns the capture groups.
 */
module Commands {
  import opened Options
  import opened Strings

  /** `isReserved` in backend/index.js. */
  const ReservedWords: seq<string> := [
    "menu", "hola", "catalogo", "carrito", "checkout",
    "pago", "pagar", "pagado", "confirmar", "cancelar", "ayuda",
    "humano", "asesor", "hablar con humano"]

  /** `isReserved` in index.js, which also reserves "agregar". */
  const ReservedWordsLegacy: seq<string> := [
    "menu", "hola", "catalogo", "carrito", "checkout", "agregar",
    "pago", "pagar", "pagado", "confirmar", "cancelar", "ayuda",
    "humano", "asesor", "hablar con humano"]

  /** Membership in `ReservedWords`, word by word. */
  predicate IsReserved(t: string) {
    || t == "menu" || t == "hola" || t == "catalogo" || t == "carrito" || t == "checkout"
    || t == "pago" || t == "pagar" || t == "pagado" || t == "confirmar" || t == "cancelar" || t == "ayuda"
    || t == "humano" || t == "asesor" || t == "hablar con humano"
  }

  /** Membership in `ReservedWordsLegacy`, word by word. */
  predicate IsReservedLegacy(t: string) {
    || t == "menu" || t == "hola" || t == "catalogo" || t == "carrito" || t == "checkout" || t == "agregar"
    || t == "pago" || t == "pagar" || t == "pagado" || t == "confirmar" || t == "cancelar" || t == "ayuda"
    || t == "humano" || t == "asesor" || t == "hablar con humano"
  }

  /** `IsReserved` is `reserved.includes(t)` for the list of backend/index.js. */
  lemma ReservedIsListed(t: string)
    ensures IsReserved(t) <==> t in ReservedWords
  {
    if t in ReservedWords {
      var i :| 0 <= i < |ReservedWords| && ReservedWords[i] == t;
    }
  }

  /** `IsReservedLegacy` is `reserved.includes(t)` for the list of index.js. */
  lemma ReservedLegacyIsListed(t: string)
    ensures IsReservedLegacy(t) <==> t in ReservedWordsLegacy
  {
    if t in ReservedWordsLegacy {
      var i :| 0 <= i < |ReservedWordsLegacy| && ReservedWordsLegacy[i] == t;
    }
  }

  /** The older list is the newer one plus "agregar". */
  lemma ReservedListsDiffer(t: string)
    ensures IsReservedLegacy(t) <==> IsReserved(t) || t == "agregar"
  {
  }

  /** `isAdmin` in backend/index.js: `ADMIN_NUMBER && from === ADMIN_NUMBER`. */
  predicate IsAdmin(adminNumber: string, from: string) {
    adminNumber != "" && from == adminNumber
  }

  /** `isAdmin` in index.js: plain equality. */
  predicate IsAdminLegacy(adminNumber: string, from: string) {
    from == adminNumber
  }

  /**
    The two gates agree on every sender the handler can see (`From` falls
    back to "unknown", so it is never empty); with no `ADMIN_NUMBER` nobody is
    an admin in either revision.
   */
  lemma AdminGatesAgree(adminNumber: string, from: string)
    requires from != ""
    ensures IsAdmin(adminNumber, from) <==> IsAdminLegacy(adminNumber, from)
    ensures adminNumber == "" ==> !IsAdmin(adminNumber, from) && !IsAdminLegacy(adminNumber, from)
  {
  }

  // Regular-expression pieces.

  /** The characters `.` matches: everything but a line terminator. */
  predicate IsLineTerminator(c: char) {
    c == '\n' || c == '\r' || c == '\U{2028}' || c == '\U{2029}'
  }

  predicate NoLineTerminator(s: string) {
    forall i :: 0 <= i < |s| ==> !IsLineTerminator(s[i])
  }

  /** `[a-z0-9_-]` under the `i` flag. */
  predicate IsIdChar(c: char) {
    ('a' <= c <= 'z') || ('A' <= c <= 'Z') || IsDigit(c) || c == '_' || c == '-'
  }

  /** An ASCII literal matched under the `i` flag. */
  predicate StartsWithFolded(s: string, literal: string) {
    |literal| <= |s| && Lower(s[..|literal|]) == literal
  }

  /** The longest prefix of `s` made of `[a-z0-9_-]`, which is what the greedy `+` takes. */
  function IdRun(s: string): (r: string)
    ensures |r| <= |s| && r == s[..|r|]
    ensures forall i :: 0 <= i < |r| ==> IsIdChar(r[i])
    ensures |r| < |s| ==> !IsIdChar(s[|r|])
  {
    if s != [] && IsIdChar(s[0]) then [s[0]] + IdRun(s[1..]) else []
  }

  /**
    `(?:\\s+(.+))?$` matched against the rest `r` of the input. `None` when
    it does not match; otherwise the capture group, with "" standing for a
    group that did not participate (the group itself is never empty). The
    greedy `\\s+` takes every leading space unless `.+` is then left with
    nothing, when it gives back the last one.
   */
  function OptionalArgument(r: string): (g: Option<string>)
    ensures g.Some? && g.value != "" ==> r != [] && IsSpace(r[0]) && NoLineTerminator(g.value)
    ensures g.Some? && g.value != "" ==> |g.value| < |r| && g.value == r[|r| - |g.value|..]
    ensures r == [] ==> g == Some("")
  {
    if r == [] then Some("")
    else if !IsSpace(r[0]) then None
    else
      var t := TrimStart(r);
      if t != [] then
        if NoLineTerminator(t) then Some(t) else None
      else if |r| >= 2 && !IsLineTerminator(r[|r| - 1]) then Some(r[|r| - 1..])
      else None
  }

  /** `/^admin company set ([a-z0-9_-]+)(?:\s+(.+))?$/i`: the company id and the target. */
  function ParseCompanySet(cmd: string): (m: Option<(string, string)>)
    ensures m.Some? ==> StartsWithFolded(cmd, "admin company set ") && m.value.0 != []
    ensures m.Some? ==> forall i :: 0 <= i < |m.value.0| ==> IsIdChar(m.value.0[i])
  {
    var prefix := "admin company set ";
    if !StartsWithFolded(cmd, prefix) then None
    else
      var rest := cmd[|prefix|..];
      var id := IdRun(rest);
      if id == [] then None
      else
        match OptionalArgument(rest[|id|..])
        case None => None
        case Some(target) => Some((id, target))
  }

  /** The length of the mode `(off|lite|pro)` that starts `rest`, 0 when none does. */
  function ModeLength(rest: string): (len: nat)
    ensures len == 0 || len == 3 || len == 4
    ensures len != 0 ==> len <= |rest| && var mode := Lower(rest[..len]); mode == "off" || mode == "lite" || mode == "pro"
  {
    if StartsWithFolded(rest, "off") then 3
    else if StartsWithFolded(rest, "lite") then 4
    else if StartsWithFolded(rest, "pro") then 3
    else 0
  }

  /**
    `/^admin ai set (off|lite|pro)(?:\s+(.+))?$/i`: the mode as written and
    the target; `ParseAiSetParts` says where in the command each comes from.
   */
  function ParseAiSet(cmd: string): (m: Option<(string, string)>)
    ensures m.Some? ==> var mode := Lower(m.value.0); mode == "off" || mode == "lite" || mode == "pro"
    ensures m.Some? ==> StartsWithFolded(cmd, "admin ai set ")
  {
    var prefix := "admin ai set ";
    if !StartsWithFolded(cmd, prefix) then None
    else
      var rest := cmd[|prefix|..];
      var len := ModeLength(rest);
      if len == 0 then None
      else
        match OptionalArgument(rest[len..])
        case None => None
        case Some(target) => Some((rest[..len], target))
  }

  /**
    A match takes the mode right after the prefix and the target from what
    the optional tail captures of the rest of the command.
   */
  lemma ParseAiSetParts(cmd: string)
    requires ParseAiSet(cmd).Some?
    ensures var m := ParseAiSet(cmd).value;
      && 13 + |m.0| <= |cmd| && m.0 == cmd[13..13 + |m.0|]
      && OptionalArgument(cmd[13 + |m.0|..]) == Some(m.1)
  {
    var rest := cmd[13..];
    var len := ModeLength(rest);
    var target := OptionalArgument(rest[len..]).value;
    assert ParseAiSet(cmd) == Some((rest[..len], target));
    assert rest[..len] == cmd[13..13 + len];
    assert rest[len..] == cmd[13 + len..];
  }

  /** `/^admin ai status(?:\s+(.+))?$/i`: the target, taken from the end of the command after white space. */
  function ParseAiStatus(cmd: string): (m: Option<string>)
    ensures m.Some? ==> StartsWithFolded(cmd, "admin ai status")
    ensures m == Some("") ==> |cmd| == 15
    ensures m.Some? && m.value != "" ==>
      && 15 + |m.value| < |cmd|
      && IsSpace(cmd[15])
      && m.value == cmd[|cmd| - |m.value|..]
      && NoLineTerminator(m.value)
  {
    var prefix := "admin ai status";
    if !StartsWithFolded(cmd, prefix) then None
    else OptionalArgument(cmd[|prefix|..])
  }

  /**
    `text` is "agregar", then white space from position 7 up to `k`, then
    decimal digits from `k` to the end.
   */
  predicate AddShape(text: string, k: int) {
    && StartsWith(text, "agregar")
    && 8 <= k < |text|
    && (forall i :: 7 <= i < k ==> IsSpace(text[i]))
    && (forall i :: k <= i < |text| ==> IsDigit(text[i]))
  }

  /**
    `/^agregar\s+(\d+)$/` followed by `Number(...)`: the product id. A match
    means the text has the shape, and the id is the value of its digits;
    `ParseAddShape` gives the converse.
   */
  function ParseAdd(text: string): (m: Option<nat>)
    ensures m.Some? ==> StartsWith(text, "agregar") && |text| > 8 && IsSpace(text[7])
    ensures m.Some? ==> forall i :: 7 <= i < |text| ==> IsSpace(text[i]) || IsDigit(text[i])
    ensures m.Some? ==> exists k :: AddShape(text, k) && m.value == DigitsValue(text[k..])
  {
    if !StartsWith(text, "agregar") then None
    else
      var rest := text[7..];
      var digits := TrimStart(rest);
      if rest != [] && IsSpace(rest[0]) && AllDigits(digits) then
        assert forall i :: 7 <= i < |text| ==> text[i] == rest[i - 7];
        var k := |text| - |digits|;
        assert text[k..] == digits;
        assert AddShape(text, k);
        Some(DigitsValue(digits))
      else None
  }

  /** Every text of the shape matches, and the id is the value of its digits. */
  lemma ParseAddShape(text: string, k: int)
    requires AddShape(text, k)
    ensures ParseAdd(text) == Some(DigitsValue(text[k..]))
  {
    var rest := text[7..];
    forall i | 0 <= i < k - 7
      ensures IsSpace(rest[i])
    {
      assert rest[i] == text[i + 7];
    }
    assert rest[k - 7] == text[k];
    assert IsDigit(rest[k - 7]);
    TrimStartAt(rest, k - 7);
    var digits := rest[k - 7..];
    assert digits == text[k..];
    forall i | 0 <= i < |digits|
      ensures IsDigit(digits[i])
    {
      assert digits[i] == text[k + i];
    }
    assert rest[0] == text[7];
    assert ParseAdd(text) == Some(DigitsValue(digits));
  }

  /** `TrimStart` stops at the first character that is no white space. */
  lemma {:induction false} TrimStartAt(s: string, j: nat)
    requires j < |s| && !IsSpace(s[j])
    requires forall i :: 0 <= i < j ==> IsSpace(s[i])
    ensures TrimStart(s) == s[j..]
  {
    if j > 0 {
      assert s[1..][j - 1..] == s[j..];
      TrimStartAt(s[1..], j - 1);
    }
  }

  /** "agregar " followed by a product id as the catalog prints it parses back to that id. */
  lemma {:induction false} ParseAddRoundTrip(n: nat)
    ensures ParseAdd("agregar " + NatToString(n)) == Some(n)
  {
    var digits := NatToString(n);
    var text := "agregar " + digits;
    assert text[..7] == "agregar";
    assert StartsWith(text, "agregar");
    var rest := text[7..];
    assert rest == " " + digits;
    assert IsSpace(rest[0]);
    SpaceThenWord(digits);
    assert TrimStart(rest) == digits;
    NatToStringRoundTrip(n);
  }

  lemma SpaceThenWord(w: string)
    requires w != [] && !IsSpace(w[0])
    ensures TrimStart(" " + w) == w
  {
    assert (" " + w)[1..] == w;
  }

  /** A lowercase literal matches itself under the `i` flag. */
  lemma LowerOfLowercase(p: string)
    requires forall i :: 0 <= i < |p| ==> !('A' <= p[i] <= 'Z')
    ensures Lower(p) == p
  {
  }

  lemma {:induction false} IdRunStops(id: string, rest: string)
    requires forall i :: 0 <= i < |id| ==> IsIdChar(id[i])
    requires rest == [] || !IsIdChar(rest[0])
    ensures IdRun(id + rest) == id
  {
    if id != [] {
      assert (id + rest)[1..] == id[1..] + rest;
      IdRunStops(id[1..], rest);
    }
  }

  lemma CompanySetPrefix(x: string)
    ensures StartsWithFolded("admin company set " + x, "admin company set ")
    ensures ("admin company set " + x)[18..] == x
  {
    var prefix := "admin company set ";
    LowerOfLowercase(prefix);
    assert (prefix + x)[..|prefix|] == prefix;
  }

  /** "admin company set <id> <target>" splits back into the id and the target. */
  lemma ParseCompanySetRoundTrip(id: string, target: string)
    requires id != [] && forall i :: 0 <= i < |id| ==> IsIdChar(id[i])
    requires target != [] && !IsSpace(target[0]) && NoLineTerminator(target)
    ensures ParseCompanySet("admin company set " + id + " " + target) == Some((id, target))
  {
    var rest := id + (" " + target);
    assert "admin company set " + id + " " + target == "admin company set " + rest;
    CompanySetPrefix(rest);
    IdRunStops(id, " " + target);
    assert rest[|id|..] == " " + target;
    SpaceThenWord(target);
    assert OptionalArgument(" " + target) == Some(target);
  }

  /** Without a target the second group does not participate. */
  lemma ParseCompanySetWithoutTarget(id: string)
    requires id != [] && forall i :: 0 <= i < |id| ==> IsIdChar(id[i])
    ensures ParseCompanySet("admin company set " + id) == Some((id, ""))
  {
    CompanySetPrefix(id);
    IdRunStops(id, []);
    assert id + [] == id;
  }

  /** A lowercase literal starts every command that begins with it, and the rest follows it. */
  lemma LiteralPrefix(p: string, x: string)
    requires forall i :: 0 <= i < |p| ==> !('A' <= p[i] <= 'Z')
    ensures StartsWithFolded(p + x, p)
    ensures (p + x)[|p|..] == x
  {
    LowerOfLowercase(p);
    assert (p + x)[..|p|] == p;
  }

  predicate IsMode(mode: string) {
    mode == "off" || mode == "lite" || mode == "pro"
  }

  /** What follows "admin ai set " picks out the mode that starts it. */
  lemma ModeWord(mode: string, x: string)
    requires IsMode(mode)
    ensures var rest := mode + x;
      && ModeLength(rest) == |mode|
      && rest[..|mode|] == mode && rest[|mode|..] == x
  {
    var rest := mode + x;
    LiteralPrefix(mode, x);
    assert rest[0] == mode[0];
    if |rest| >= 3 {
      assert Lower(rest[..3])[0] == rest[0];
    }
    if |rest| >= 4 {
      assert Lower(rest[..4])[0] == rest[0];
    }
  }

  /** "admin ai set <mode> <target>" splits back into the mode and the target. */
  lemma ParseAiSetRoundTrip(mode: string, target: string)
    requires IsMode(mode)
    requires target != [] && !IsSpace(target[0]) && NoLineTerminator(target)
    ensures ParseAiSet("admin ai set " + mode + " " + target) == Some((mode, target))
  {
    var rest := mode + (" " + target);
    var cmd := "admin ai set " + rest;
    assert "admin ai set " + mode + " " + target == cmd;
    LiteralPrefix("admin ai set ", rest);
    assert cmd[13..] == rest;
    ModeWord(mode, " " + target);
    SpaceThenWord(target);
    assert OptionalArgument(" " + target) == Some(target);
    assert OptionalArgument(rest[|mode|..]) == Some(target);
  }

  /** Without a target the second group does not participate. */
  lemma ParseAiSetWithoutTarget(mode: string)
    requires IsMode(mode)
    ensures ParseAiSet("admin ai set " + mode) == Some((mode, ""))
  {
    LiteralPrefix("admin ai set ", mode);
    ModeWord(mode, []);
    assert mode + [] == mode;
  }

  /** "admin ai status <target>" gives back the target. */
  lemma ParseAiStatusRoundTrip(target: string)
    requires target != [] && !IsSpace(target[0]) && NoLineTerminator(target)
    ensures ParseAiStatus("admin ai status " + target) == Some(target)
  {
    assert "admin ai status " + target == "admin ai status" + (" " + target);
    LiteralPrefix("admin ai status", " " + target);
    SpaceThenWord(target);
  }

  /** "admin ai status" alone has no target. */
  lemma ParseAiStatusWithoutTarget()
    ensures ParseAiStatus("admin ai status") == Some("")
  {
    LiteralPrefix("admin ai status", []);
    assert "admin ai status" + [] == "admin ai status";
  }

  // Target numbers.

  const WhatsappPrefix: string := "whatsapp:"

  /**
    backend/index.js: a target without the "whatsapp:" prefix gets it, with a
    "+" added in front of an all-digits number; anything else is kept.
   */
  function NormalizeTarget(t: string): string {
    if StartsWith(t, WhatsappPrefix) then t
    else if StartsWith(t, "+") then WhatsappPrefix + t
    else if AllDigits(t) then WhatsappPrefix + "+" + t
    else t
  }

  /** index.js, for "admin ai set" and "admin ai status": the first "+" is dropped instead. */
  function NormalizeTargetLegacy(t: string): string {
    if StartsWith(t, WhatsappPrefix) then t
    else WhatsappPrefix + RemoveFirstPlus(t)
  }

  lemma PrefixedStartsWith(p: string, t: string)
    ensures StartsWith(p + t, p)
  {
    assert (p + t)[..|p|] == p;
  }

  /**
    The backend normalisation gives a "whatsapp:" address exactly for inputs
    that already were one, start with "+" or are all digits; everything else is
    left as it was. Applying it twice is the same as once.
   */
  lemma NormalizeTargetCases(t: string)
    ensures StartsWith(t, WhatsappPrefix) ==> NormalizeTarget(t) == t
    ensures !StartsWith(t, WhatsappPrefix) && StartsWith(t, "+") ==> NormalizeTarget(t) == "whatsapp:" + t
    ensures !StartsWith(t, WhatsappPrefix) && AllDigits(t) ==> NormalizeTarget(t) == "whatsapp:+" + t
    ensures !StartsWith(t, WhatsappPrefix) && !StartsWith(t, "+") && !AllDigits(t) ==> NormalizeTarget(t) == t
    ensures StartsWith(NormalizeTarget(t), WhatsappPrefix) <==>
      StartsWith(t, WhatsappPrefix) || StartsWith(t, "+") || AllDigits(t)
  {
    if !StartsWith(t, WhatsappPrefix) && (StartsWith(t, "+") || AllDigits(t)) {
      PrefixedStartsWith(WhatsappPrefix, if StartsWith(t, "+") then t else "+" + t);
    }
  }

  lemma {:induction false} NormalizeTargetIdempotent(t: string)
    ensures NormalizeTarget(NormalizeTarget(t)) == NormalizeTarget(t)
  {
    NormalizeTargetCases(t);
    var n := NormalizeTarget(t);
    if n != t {
      assert StartsWith(n, WhatsappPrefix);
    }
  }

  /** The older normalisation always yields a "whatsapp:" address, so it too is idempotent. */
  lemma NormalizeTargetLegacyIdempotent(t: string)
    ensures StartsWith(NormalizeTargetLegacy(t), WhatsappPrefix)
    ensures NormalizeTargetLegacy(NormalizeTargetLegacy(t)) == NormalizeTargetLegacy(t)
  {
    if !StartsWith(t, WhatsappPrefix) {
      PrefixedStartsWith(WhatsappPrefix, RemoveFirstPlus(t));
    }
  }

  /**
    The two revisions disagree on an international number written with "+":
    "+5491100" becomes "whatsapp:+5491100" in backend/index.js and
    "whatsapp:5491100" in index.js.
   */
  lemma {:induction false} NormalizationsDiffer(digits: string)
    requires AllDigits(digits)
    ensures NormalizeTarget("+" + digits) == "whatsapp:+" + digits
    ensures NormalizeTargetLegacy("+" + digits) == "whatsapp:" + digits
    ensures NormalizeTarget("+" + digits) != NormalizeTargetLegacy("+" + digits)
  {
    var t := "+" + digits;
    assert !StartsWith(t, WhatsappPrefix) by {
      assert t[0] == '+';
    }
    assert StartsWith(t, "+");
    assert RemoveFirstPlus(t) == digits;
    assert (WhatsappPrefix + "+" + digits)[9] == '+';
    assert (WhatsappPrefix + digits)[9] == digits[0];
  }
}
