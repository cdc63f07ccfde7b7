/** An operation as it arrives, its fingerprint, and what parsing it accepts. */
module Commands {
  import opened Base
  import opened Money
  import opened MoneyText
  import opened Idempotency
  import opened Domain

  datatype SubmitCommand = SubmitCommand(
    idempotencyKey: string,
    providerId: string,
    externalId: string,
    playerId: string,
    walletId: string,
    roundId: string,
    gameId: string,
    kind: string,
    amount: string,
    currency: string,
    referenceExternalId: string)

  const MAX_IDENTIFIER := 128

  predicate IsCurrency(s: string) {
    |s| == 3 && forall i :: 0 <= i < 3 ==> 'A' <= s[i] <= 'Z'
  }

  predicate HasMoney(c: SubmitCommand) {
    IsCurrency(c.currency) && ParseMinor(c.amount).Ok?
  }

  /** The amount as hashed: the canonical spelling when there is one, the raw text otherwise. */
  function AmountText(c: SubmitCommand): string {
    if HasMoney(c) then Spelling(ParseMinor(c.amount).value) else c.amount
  }

  function FieldsOf(c: SubmitCommand): Fields {
    var fields := map[
      "providerId" := c.providerId, "externalId" := c.externalId, "playerId" := c.playerId,
      "walletId" := c.walletId, "roundId" := c.roundId, "gameId" := c.gameId,
      "kind" := c.kind, "amount" := AmountText(c), "currency" := c.currency];
    if c.referenceExternalId != "" then fields["referenceExternalId" := c.referenceExternalId] else fields
  }

  /** What is hashed, field by field; an absent reference is not. */
  lemma FieldsByName(c: SubmitCommand)
    ensures var f := FieldsOf(c);
            && f.Keys == {"providerId", "externalId", "playerId", "walletId", "roundId", "gameId", "kind", "amount",
                          "currency"} + (if c.referenceExternalId == "" then {} else {"referenceExternalId"})
            && f["providerId"] == c.providerId && f["externalId"] == c.externalId && f["playerId"] == c.playerId
            && f["walletId"] == c.walletId && f["roundId"] == c.roundId && f["gameId"] == c.gameId
            && f["kind"] == c.kind && f["currency"] == c.currency
            && f["amount"] == (if IsCurrency(c.currency) && ParseMinor(c.amount).Ok?
                               then Spelling(ParseMinor(c.amount).value) else c.amount)
            && (c.referenceExternalId != "" ==> f["referenceExternalId"] == c.referenceExternalId)
  {
    hide ParseMinor, Spelling;
  }

  /** The digest stands for any injective fingerprint of the canonical text. */
  function Sha256(text: string): string { text }

  const HASH_PREFIX := "sha256:"

  ghost function PayloadHash(c: SubmitCommand): string {
    HASH_PREFIX + Sha256(Canonical(FieldsOf(c)))
  }

  method ComputePayloadHash(c: SubmitCommand) returns (hash: string)
    ensures hash == PayloadHash(c)
  {
    var text := Canonicalise(FieldsOf(c));
    hash := HASH_PREFIX + Sha256(text);
  }

  predicate SameFields(a: SubmitCommand, b: SubmitCommand) {
    && a.providerId == b.providerId && a.externalId == b.externalId && a.playerId == b.playerId
    && a.walletId == b.walletId && a.roundId == b.roundId && a.gameId == b.gameId
    && a.kind == b.kind && a.currency == b.currency && a.referenceExternalId == b.referenceExternalId
  }

  /** The same money, or the same text when there is no money in it. */
  predicate SameAmount(a: SubmitCommand, b: SubmitCommand) {
    if HasMoney(a) then HasMoney(b) && ParseMinor(a.amount) == ParseMinor(b.amount)
    else !HasMoney(b) && a.amount == b.amount
  }

  lemma AmountTextDecides(a: SubmitCommand, b: SubmitCommand)
    requires a.currency == b.currency
    ensures AmountText(a) == AmountText(b) <==> SameAmount(a, b)
  {
    hide ParseMinor, Spelling;
    if HasMoney(a) { ParsePrinted(ParseMinor(a.amount).value); }
    if HasMoney(b) { ParsePrinted(ParseMinor(b.amount).value); }
  }

  lemma FieldsDecide(a: SubmitCommand, b: SubmitCommand)
    ensures FieldsOf(a) == FieldsOf(b) <==> SameFields(a, b) && AmountText(a) == AmountText(b)
  {
    hide AmountText;
    var f, g := FieldsOf(a), FieldsOf(b);
    if f == g {
      assert f["providerId"] == g["providerId"] && f["externalId"] == g["externalId"];
      assert f["playerId"] == g["playerId"] && f["walletId"] == g["walletId"];
      assert f["roundId"] == g["roundId"] && f["gameId"] == g["gameId"];
      assert f["kind"] == g["kind"] && f["currency"] == g["currency"] && f["amount"] == g["amount"];
      assert ("referenceExternalId" in f) == ("referenceExternalId" in g);
      assert "referenceExternalId" in f ==> f["referenceExternalId"] == g["referenceExternalId"];
    }
  }

  /** Two commands hash alike exactly when they are the same content, whatever their keys. */
  lemma HashIdentifiesContent(a: SubmitCommand, b: SubmitCommand)
    ensures PayloadHash(a) == PayloadHash(b) <==> SameFields(a, b) && SameAmount(a, b)
  {
    hide AmountText, Canonical, FieldsOf, HasMoney;
    CanonicalIsInjective(FieldsOf(a), FieldsOf(b));
    FieldsDecide(a, b);
    if a.currency == b.currency { AmountTextDecides(a, b); }
    var x, y := Sha256(Canonical(FieldsOf(a))), Sha256(Canonical(FieldsOf(b)));
    assert (HASH_PREFIX + x)[|HASH_PREFIX|..] == x && (HASH_PREFIX + y)[|HASH_PREFIX|..] == y;
  }

  /* ---- parsing ---- */

  function KindOf(s: string): Option<Kind> {
    if s == "OPENING" then Some(OpeningCredit)
    else if s == "BET" then Some(Bet)
    else if s == "WIN" then Some(Win)
    else if s == "LOSS" then Some(Loss)
    else if s == "REFUND" then Some(Refund)
    else if s == "ROLLBACK" then Some(Rollback)
    else None
  }

  predicate IsIdentifier(s: string) { 0 < |s| <= MAX_IDENTIFIER }

  ghost function Parse(c: SubmitCommand): (r: Result<Request>)
    ensures r.Err? ==> r.error.Domain?
    ensures r.Ok? ==>
              && r.value.payloadHash == PayloadHash(c) && r.value.idempotencyKey == c.idempotencyKey
              && r.value.providerId == c.providerId != "" && r.value.externalId == c.externalId != ""
              && r.value.walletId == c.walletId
  {
    if !IsIdentifier(c.idempotencyKey) || !IsIdentifier(c.providerId) || !IsIdentifier(c.externalId)
       || !IsIdentifier(c.playerId) || !IsIdentifier(c.walletId) || !IsIdentifier(c.roundId) || !IsIdentifier(c.gameId)
    then Err(Domain(InvalidIdentifier))
    else
      match KindOf(c.kind)
      case None => Err(Domain(InvalidKind))
      case Some(kind) =>
        if !IsCurrency(c.currency) then Err(Domain(InvalidCurrency))
        else
          match ParseExternal(c.amount, c.currency)
          case Err(e) => Err(e)
          case Ok(money) =>
            if c.referenceExternalId != "" && !IsIdentifier(c.referenceExternalId) then Err(Domain(InvalidIdentifier))
            else Ok(Request(c.idempotencyKey, PayloadHash(c), c.providerId, c.externalId, c.playerId, c.walletId,
                            c.roundId, c.gameId, kind, money, c.referenceExternalId))
  }

  predicate IsNamed(s: string) { s != "" && |s| <= 128 }

  /** The first thing wrong with a command. */
  function Unparsable(c: SubmitCommand): Option<Error> {
    if !(IsNamed(c.idempotencyKey) && IsNamed(c.providerId) && IsNamed(c.externalId) && IsNamed(c.playerId)
         && IsNamed(c.walletId) && IsNamed(c.roundId) && IsNamed(c.gameId))
    then Some(Domain(InvalidIdentifier))
    else if c.kind !in {"OPENING", "BET", "WIN", "LOSS", "REFUND", "ROLLBACK"} then Some(Domain(InvalidKind))
    else if |c.currency| != 3 || exists k :: 0 <= k < 3 && !('A' <= c.currency[k] <= 'Z')
    then Some(Domain(InvalidCurrency))
    else
      match ParseMinor(c.amount)
      case Err(e) => Some(e)
      case Ok(minor) =>
        if minor < 0 then Some(Domain(NegativeAmount))
        else if 128 < |c.referenceExternalId| then Some(Domain(InvalidIdentifier))
        else None
  }

  predicate IsTheKind(kind: Kind, text: string) {
    match kind
    case OpeningCredit => text == "OPENING"
    case Bet => text == "BET"
    case Win => text == "WIN"
    case Loss => text == "LOSS"
    case Refund => text == "REFUND"
    case Rollback => text == "ROLLBACK"
  }

  /** A command is refused for the first thing wrong with it, and otherwise carried over field by field. */
  lemma ParsedFieldByField(c: SubmitCommand)
    ensures match Unparsable(c)
            case Some(e) => Parse(c) == Err(e)
            case None =>
              && Parse(c).Ok? && ParseMinor(c.amount).Ok?
              && var p := Parse(c).value;
                 && p.idempotencyKey == c.idempotencyKey && p.payloadHash == PayloadHash(c)
                 && p.providerId == c.providerId && p.externalId == c.externalId && p.playerId == c.playerId
                 && p.walletId == c.walletId && p.roundId == c.roundId && p.gameId == c.gameId
                 && p.referenceExternalId == c.referenceExternalId && IsTheKind(p.kind, c.kind)
                 && p.money.minor == ParseMinor(c.amount).value && p.money.currency == c.currency
  {
    hide ParseMinor, PayloadHash;
  }

  method ParseCommand(c: SubmitCommand) returns (r: Result<Request>)
    ensures r == Parse(c)
  {
    hide ParseMinor, PayloadHash;
    var hash := ComputePayloadHash(c);
    if !IsIdentifier(c.idempotencyKey) || !IsIdentifier(c.providerId) || !IsIdentifier(c.externalId)
       || !IsIdentifier(c.playerId) || !IsIdentifier(c.walletId) || !IsIdentifier(c.roundId)
       || !IsIdentifier(c.gameId)
    {
      return Err(Domain(InvalidIdentifier));
    }
    var kind := KindOf(c.kind);
    if kind.None? {
      return Err(Domain(InvalidKind));
    }
    if !IsCurrency(c.currency) {
      return Err(Domain(InvalidCurrency));
    }
    var minor := ScanMinor(c.amount);
    if minor.Err? {
      return Err(minor.error);
    }
    if minor.value < 0 {
      return Err(Domain(NegativeAmount));
    }
    if c.referenceExternalId != "" && !IsIdentifier(c.referenceExternalId) {
      return Err(Domain(InvalidIdentifier));
    }
    r := Ok(Request(c.idempotencyKey, hash, c.providerId, c.externalId, c.playerId, c.walletId,
                    c.roundId, c.gameId, kind.value, Money(minor.value, c.currency), c.referenceExternalId));
  }
}
