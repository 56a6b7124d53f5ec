/**
  What the words a customer types rule out: the fixed words, the reserved
  words and an "agregar <n>" message are never taken for an admin command,
  and none of them reaches a branch meant for another word. Both revisions
  of the handler test the words in the same order, so their routing proofs
  share these facts.
 */
module Words {
  import opened Options
  import opened Strings
  import opened Tables
  import opened Commands
  import opened Webhook

  /** A message whose text does not begin with "admin" is not an admin command. */
  lemma NotAdminWord(inp: Input)
    requires |Text(inp)| < 5 || Text(inp)[..5] != "admin"
    ensures !IsAdminCommand(inp)
  {
    if IsAdminCommand(inp) {
      AdminCommandText(inp);
    }
  }

  lemma CheckoutWordIsNoCommand(inp: Input)
    requires Text(inp) == "checkout" || Text(inp) == "confirmar"
    ensures !IsAdminCommand(inp)
  {
    var t := Text(inp);
    assert t[0] == 'c';
    FirstLetterC(t);
    NotAdminWord(inp);
  }

  lemma CheckoutWordIsNoAdd(t: string)
    requires t == "checkout" || t == "confirmar"
    ensures ParseAdd(t).None?
  {
    assert t[..7][0] == 'c' != "agregar"[0];
  }

  lemma AddIsNoCommand(inp: Input, n: nat)
    requires ParseAdd(Text(inp)) == Some(n)
    ensures !IsAdminCommand(inp)
  {
    AddSpelling(Text(inp), n);
    SecondLetterG(Text(inp));
    NotAdminWord(inp);
  }

  lemma SecondLetterG(t: string)
    requires |t| >= 5 && t[1] == 'g'
    ensures t[..5] != "admin"
  {
    assert t[..5][1] == 'g' != "admin"[1];
  }

  lemma AddSpelling(t: string, n: nat)
    requires ParseAdd(t) == Some(n)
    ensures |t| > 8 && t[0] == 'a' && t[1] == 'g'
  {
    assert t[..7] == "agregar";
    assert t[0] == t[..7][0] && t[1] == t[..7][1];
  }

  lemma AddIsNoWord(t: string, n: nat)
    requires ParseAdd(t) == Some(n)
    ensures !IsHumanTrigger(t) && t != "menu" && t != "hola" && t != "catalogo" && t != "carrito"
  {
    AddSpelling(t, n);
  }

  /** No reserved word is an admin command or an "agregar n". */
  lemma ReservedIsNoCommand(inp: Input)
    requires IsReserved(Text(inp))
    ensures !IsAdminCommand(inp) && ParseAdd(Text(inp)).None?
  {
    var t := Text(inp);
    ReservedLetters(t);
    SecondLetterNotD(t);
    NotAdminWord(inp);
    if ParseAdd(t).Some? {
      AddSpelling(t, ParseAdd(t).value);
    }
  }

  lemma ReservedLetters(t: string)
    requires IsReserved(t)
    ensures |t| >= 4 && t[1] != 'd' && t[1] != 'g'
  {
  }

  lemma SecondLetterNotD(t: string)
    requires |t| >= 2 && t[1] != 'd'
    ensures |t| < 5 || t[..5] != "admin"
  {
    if |t| >= 5 {
      assert t[..5][1] != "admin"[1];
    }
  }

  lemma UnreservedIsNoWord(t: string)
    requires !IsReserved(t)
    ensures !IsHumanTrigger(t) && t != "menu" && t != "hola" && t != "catalogo" && t != "carrito"
    ensures t != "checkout" && t != "confirmar"
  {
  }

  /** An admin command is none of the words the branches before the admin gate test. */
  lemma AdminIsNoWord(inp: Input)
    requires IsAdminCommand(inp)
    ensures var t := Text(inp); !IsHumanTrigger(t) && t != "menu" && t != "hola"
  {
    AdminCommandText(inp);
    AdminPrefixIsNoWord(Text(inp));
  }

  lemma AdminPrefixIsNoWord(t: string)
    requires StartsWith(t, "admin")
    ensures !IsHumanTrigger(t) && t != "menu" && t != "hola"
  {
    assert t[1] == t[..5][1] == 'd';
    SecondLetterD(t);
  }

  /** Every fixed word has a second letter other than 'd'. */
  lemma SecondLetterD(t: string)
    requires |t| >= 2 && t[1] == 'd'
    ensures !IsHumanTrigger(t) && t != "menu" && t != "hola"
  {
    assert "humano"[1] != 'd' && "asesor"[1] != 'd' && "hablar con humano"[1] != 'd';
    assert "menu"[1] != 'd' && "hola"[1] != 'd';
  }

  /** A "company set" command is neither "admin whoami" nor "admin company list". */
  lemma CompanySetIsNoOtherCommand(cmd: string)
    requires ParseCompanySet(cmd).Some?
    ensures cmd != "admin whoami" && cmd != "admin company list"
  {
    assert StartsWithFolded(cmd, "admin company set ");
    assert Lower(cmd[..18])[17] == ' ';
  }

  /** "catalogo" and "carrito" are no admin command and no trigger. */
  lemma ViewWordIsNoCommand(inp: Input)
    requires Text(inp) == "catalogo" || Text(inp) == "carrito"
    ensures !IsAdminCommand(inp) && !IsHumanTrigger(Text(inp))
  {
    var t := Text(inp);
    assert t[0] == 'c';
    FirstLetterC(t);
    NotAdminWord(inp);
  }

  /** Neither "admin" nor a human trigger starts with 'c'. */
  lemma FirstLetterC(t: string)
    requires |t| >= 5 && t[0] == 'c'
    ensures t[..5] != "admin" && !IsHumanTrigger(t)
  {
    assert t[..5][0] == 'c' != "admin"[0];
  }

  /**
    "checkout" and "confirmar" are reserved in both revisions and are none of
    the words the branches before the checkout branches test.
   */
  lemma CheckoutWordFacts(t: string)
    requires t == "checkout" || t == "confirmar"
    ensures IsReserved(t) && IsReservedLegacy(t) && !IsHumanTrigger(t) && ParseAdd(t).None?
    ensures t != "menu" && t != "hola" && t != "catalogo" && t != "carrito"
  {
    CheckoutWordIsNoAdd(t);
    FirstLetterC(t);
    assert t[1] != "catalogo"[1];
  }

  /** A bare "agregar" is no admin command, no reserved word of backend/index.js and no "agregar n". */
  lemma BareAgregar(inp: Input)
    requires Text(inp) == "agregar"
    ensures !IsAdminCommand(inp) && !IsReserved(Text(inp)) && ParseAdd(Text(inp)).None?
  {
    AgregarWord(Text(inp));
    NotAdminWord(inp);
  }

  lemma AgregarWord(t: string)
    requires t == "agregar"
    ensures t[..5] != "admin" && !IsReserved(t) && ParseAdd(t).None?
  {
    assert t[1] == 'g';
    SecondLetterG(t);
    if IsReserved(t) {
      ReservedLetters(t);
    }
  }
}
