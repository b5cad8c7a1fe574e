/**
 * Webhook delivery: redaction of what is queued, rehydration from the card vault, and the retry queue.
 * Times are milliseconds.
 */
module Webhooks {
  import opened Common

  // ---- Payloads and the vault --------------------------------------------------------------------------------

  datatype Card = Card(number: Option<string>, cvv: Option<string>, expiry: Option<string>, brand: Option<string>)

  /** `rest`: the fields redaction does not look at. */
  datatype Payload = Payload(orderId: string, status: string, card: Option<Card>, rest: string)

  /** A sealed field, or nothing where sealField throws; an opened one, or nothing where open throws. */
  datatype Vault = Vault(seal: string -> Option<string>, open: string -> Option<string>)

  /** What is sealed opens to what it was; neither side of it is empty. */
  ghost predicate Sound(vault: Vault) {
    forall v: string :: vault.seal(v).Some? ==>
      v != "" && vault.seal(v).value != "" && vault.open(vault.seal(v).value) == Some(v)
  }

  function Redact(p: Payload): Payload {
    if p.card.None? then p else p.(card := Some(p.card.value.(number := None, cvv := None, expiry := None)))
  }

  predicate CarriesCardData(p: Payload) {
    p.card.Some? && (p.card.value.number.Some? || p.card.value.cvv.Some? || p.card.value.expiry.Some?)
  }

  /** sealField: the outer option is a throw. */
  function SealField(vault: Vault, field: Option<string>): Option<Option<string>> {
    if field.None? then Some(None)
    else if vault.seal(field.value).Some? then Some(vault.seal(field.value)) else None
  }

  function SealCard(vault: Vault, c: Card): Option<Card> {
    var number, cvv, expiry := SealField(vault, c.number), SealField(vault, c.cvv), SealField(vault, c.expiry);
    if number.Some? && cvv.Some? && expiry.Some? then Some(Card(number.value, cvv.value, expiry.value, c.brand))
    else None
  }

  function OpenField(vault: Vault, field: Option<string>): Option<Option<string>> {
    if field.None? || field.value == "" then Some(None)
    else if vault.open(field.value).Some? then Some(vault.open(field.value)) else None
  }

  function OpenCard(vault: Vault, row: Card): Option<Card> {
    var number, cvv, expiry := OpenField(vault, row.number), OpenField(vault, row.cvv), OpenField(vault, row.expiry);
    if number.Some? && cvv.Some? && expiry.Some? then Some(Card(number.value, cvv.value, expiry.value, row.brand))
    else None
  }

  predicate HoldsCard(orders: map<string, Card>, id: string) {
    id in orders && orders[id].number.Some? && orders[id].number.value != ""
  }

  predicate AsksForCard(p: Payload) {
    p.status == "delivered" && p.orderId != "" && p.card.Some? && p.card.value.number.None?
  }

  /** The payload a retry fires, or nothing when the vault does not open the card. */
  function Rehydrate(p: Payload, orders: map<string, Card>, vault: Vault): Option<Payload> {
    if AsksForCard(p) && HoldsCard(orders, p.orderId) then
      var card := OpenCard(vault, orders[p.orderId]);
      if card.Some? then Some(p.(card := card)) else None
    else Some(p)
  }

  lemma FieldOpens(vault: Vault, field: Option<string>)
    requires Sound(vault) && SealField(vault, field).Some?
    ensures OpenField(vault, SealField(vault, field).value) == Some(field)
  {}

  predicate Sealable(vault: Vault, field: Option<string>) { field.Some? ==> vault.seal(field.value).Some? }

  /** A card is sealed exactly when each of its fields can be, and then field by field. */
  lemma SealsIff(vault: Vault, c: Card)
    ensures SealCard(vault, c).Some? <==>
            Sealable(vault, c.number) && Sealable(vault, c.cvv) && Sealable(vault, c.expiry)
    ensures SealCard(vault, c).Some? ==>
              var row := SealCard(vault, c).value;
              && row.brand == c.brand
              && row.number == (if c.number.Some? then vault.seal(c.number.value) else None)
              && row.cvv == (if c.cvv.Some? then vault.seal(c.cvv.value) else None)
              && row.expiry == (if c.expiry.Some? then vault.seal(c.expiry.value) else None)
  {}

  lemma OpensWhatItSealed(vault: Vault, c: Card)
    requires Sound(vault) && SealCard(vault, c).Some?
    ensures OpenCard(vault, SealCard(vault, c).value) == Some(c)
  {
    FieldOpens(vault, c.number);
    FieldOpens(vault, c.cvv);
    FieldOpens(vault, c.expiry);
  }

  /** Redaction leaves no card data, and takes nothing else away. */
  lemma RedactedOnly(p: Payload, q: Payload)
    ensures !CarriesCardData(Redact(p))
    ensures Redact(p) == Redact(q) <==>
            p.orderId == q.orderId && p.status == q.status && p.rest == q.rest
            && (if p.card.Some? then q.card.Some? && p.card.value.brand == q.card.value.brand else q.card.None?)
  {
    if p.card.Some? && q.card.Some? {
      assert Redact(p).card == Redact(q).card <==> p.card.value.brand == q.card.value.brand;
    }
  }

  /**
   * Redacted and rehydrated while the order holds the sealed card, a delivery's payload gets back number, cvv and
   * expiry, and the brand of the order's row, which need not be the normalised one that was first sent.
   */
  lemma RehydrationRestores(p: Payload, c: Card, orders: map<string, Card>, vault: Vault)
    requires Sound(vault) && p.status == "delivered" && p.orderId in orders && p.orderId != ""
    requires p.card.Some? && p.card.value == c.(brand := p.card.value.brand)
             && Some(orders[p.orderId]) == SealCard(vault, c)
    ensures c.number.Some? ==> Rehydrate(Redact(p), orders, vault) == Some(p.(card := Some(c)))
    ensures Rehydrate(Redact(p), orders, vault) == Some(p) <==>
            if c.number.Some? then p.card.value.brand == c.brand else c.cvv.None? && c.expiry.None?
  {
    OpensWhatItSealed(vault, c);
    if c.number.Some? {
      assert vault.seal(c.number.value).Some? && orders[p.orderId].number == vault.seal(c.number.value);
      assert Some(p.(card := Some(c))) == Some(p) <==> p.card.value.brand == c.brand;
    }
  }

  /** A retry carries card data only if the order still holds a card number. */
  lemma NoCardNoData(p: Payload, orders: map<string, Card>, vault: Vault)
    requires !CarriesCardData(p) && Rehydrate(p, orders, vault).Some?
             && CarriesCardData(Rehydrate(p, orders, vault).value)
    ensures p.status == "delivered" && HoldsCard(orders, p.orderId)
    ensures OpenCard(vault, orders[p.orderId]) == Rehydrate(p, orders, vault).value.card
  {}

  // ---- The queue ---------------------------------------------------------------------------------------------

  const RetryDelays: seq<nat> := [30000, 300000, 1800000]
  const MaxAttempts: nat := 3

  datatype Row = Row(payload: Payload, attempts: nat, nextAttempt: nat, delivered: bool)

  /** The answer to firing a webhook; without sending it when its circuit is open or its URL is unsafe. */
  datatype Fire = Accepted | Refused | NotSent

  /** One retry of a row: what came of it, and whether the process lived to record it. */
  datatype Retry = VaultFailure | Fired(fire: Fire, recorded: bool)

  predicate Due(r: Row, now: nat) { !r.delivered && r.attempts <= MaxAttempts && r.nextAttempt <= now }

  predicate Settled(r: Row) { r.delivered || r.attempts > MaxAttempts }

  /** Retries a row has left before it is settled. */
  function RetriesLeft(r: Row): nat { if Settled(r) then 0 else MaxAttempts + 1 - r.attempts }

  function DelayAfter(attempts: nat): Option<nat> {
    if attempts < |RetryDelays| then Some(RetryDelays[attempts]) else None
  }

  /** A retry selected at `now` and recorded at `later`. */
  function Retried(r: Row, retry: Retry, now: nat, later: nat): Row {
    match retry
    case VaultFailure => r.(attempts := MaxAttempts + 1, nextAttempt := now)
    case Fired(fire, recorded) =>
      if !recorded then r
      else if fire.Accepted? then r.(delivered := true)
      else
        var delay := DelayAfter(r.attempts);
        if delay.None? || r.attempts + 1 > MaxAttempts then r.(attempts := r.attempts + 1, nextAttempt := now)
        else r.(attempts := r.attempts + 1, nextAttempt := later + delay.value)
  }

  predicate Recorded(retry: Retry) { retry.VaultFailure? || retry.recorded }

  predicate Sent(retry: Retry) { retry.Fired? && !retry.fire.NotSent? }

  /**
   * What a retry of a due row leads to. Only an accepted and recorded one delivers the row, and it is over; a failed
   * one counts, and the row waits five minutes after its first retry, thirty after its second, and is over after its
   * third; a card the vault does not open ends the row unsent; what was not recorded changes nothing.
   */
  lemma RetryAnswers(r: Row, retry: Retry, now: nat, later: nat)
    requires Due(r, now) && now <= later && 1 <= r.attempts
    ensures var r' := Retried(r, retry, now, later);
            && r'.payload == r.payload
            && (r'.delivered <==> retry == Fired(Accepted, true))
            && (r'.delivered ==> r'.attempts == r.attempts)
            && (Recorded(retry) && retry.Fired? && !retry.fire.Accepted? ==> r'.attempts == r.attempts + 1)
            && (retry.VaultFailure? ==> r'.attempts == 4 && !Sent(retry))
            && (r'.attempts == 4 ==> r'.nextAttempt == now)
            && (!Recorded(retry) ==> r' == r)
    ensures var r' := Retried(r, retry, now, later);
            forall t: nat ::
              Due(r', t) <==>
              if !Recorded(retry) then t >= r.nextAttempt
              else retry.Fired? && !retry.fire.Accepted? && r.attempts <= 2
                   && t >= later + if r.attempts == 1 then 300000 else 1800000
  {}

  /** Every recorded retry of a due row takes one retry away at least. */
  lemma RetryProgress(r: Row, retry: Retry, now: nat, later: nat)
    requires Due(r, now) && now <= later
    ensures Recorded(retry) ==> RetriesLeft(Retried(r, retry, now, later)) < RetriesLeft(r)
    ensures !Recorded(retry) ==> Retried(r, retry, now, later) == r
    ensures Settled(Retried(r, retry, now, later)) ==> forall t: nat :: !Due(Retried(r, retry, now, later), t)
  {
    assert RetriesLeft(r) == 4 - r.attempts;
  }

  /** A tick of one row: retried if due. */
  datatype Tick = Tick(now: nat, later: nat, retry: Retry)

  function RunRow(r: Row, ticks: seq<Tick>): Row {
    if ticks == [] then r
    else
      var before := RunRow(r, ticks[..|ticks| - 1]);
      var t := ticks[|ticks| - 1];
      if Due(before, t.now) then Retried(before, t.retry, t.now, t.later) else before
  }

  /** The ticks of a run that fired the webhook. */
  function Sends(r: Row, ticks: seq<Tick>): nat {
    if ticks == [] then 0
    else
      var before, t := RunRow(r, ticks[..|ticks| - 1]), ticks[|ticks| - 1];
      Sends(r, ticks[..|ticks| - 1]) + if Due(before, t.now) && Sent(t.retry) then 1 else 0
  }

  /** The ticks that found the row due. */
  function Retries(r: Row, ticks: seq<Tick>): nat {
    if ticks == [] then 0
    else
      var front := ticks[..|ticks| - 1];
      Retries(r, front) + if Due(RunRow(r, front), ticks[|ticks| - 1].now) then 1 else 0
  }

  /** The retries whose outcome was lost in a crash. */
  function Lost(r: Row, ticks: seq<Tick>): nat {
    if ticks == [] then 0
    else
      var before, t := RunRow(r, ticks[..|ticks| - 1]), ticks[|ticks| - 1];
      Lost(r, ticks[..|ticks| - 1]) + if Due(before, t.now) && !Recorded(t.retry) then 1 else 0
  }

  /**
   * A queued webhook, over any run: at most three retries besides those a crash left unrecorded, and until it is
   * settled every recorded one took one away.
   */
  lemma {:induction false} RetriesBounded(r: Row, ticks: seq<Tick>)
    requires !Settled(r) && r.attempts == 1
    requires forall i :: 0 <= i < |ticks| ==> ticks[i].now <= ticks[i].later
    ensures Sends(r, ticks) <= Retries(r, ticks) <= 3 - RetriesLeft(RunRow(r, ticks)) + Lost(r, ticks)
    ensures !Settled(RunRow(r, ticks)) ==> Retries(r, ticks) == 3 - RetriesLeft(RunRow(r, ticks)) + Lost(r, ticks)
    ensures RunRow(r, ticks).payload == r.payload
    ensures Retries(r, ticks) >= 3 + Lost(r, ticks) ==> Settled(RunRow(r, ticks))
  {
    if ticks != [] {
      var front, t := ticks[..|ticks| - 1], ticks[|ticks| - 1];
      RetriesBounded(r, front);
      var before := RunRow(r, front);
      if Due(before, t.now) { RetryProgress(before, t.retry, t.now, t.later); }
    }
  }

  class WebhookQueue {
    var rows: seq<Row>
    /** How often each row's payload was sent, the first time included, and how many sends went unrecorded. */
    ghost var sends: seq<nat>
    ghost var lost: seq<nat>

    ghost predicate Valid()
      reads this
    {
      && |sends| == |lost| == |rows|
      && forall i :: 0 <= i < |rows| ==> RowValid(rows[i], sends[i], lost[i])
    }

    constructor ()
      ensures Valid() && rows == []
    {
      rows, sends, lost := [], [], [];
    }

    /** In every reachable state of the queue a payload was sent at most four times, unrecorded sends apart. */
    lemma SentAtMostFourTimes(i: nat)
      requires Valid() && i < |rows|
      ensures sends[i] <= MaxAttempts + 1 + lost[i] && !CarriesCardData(rows[i].payload)
    {
      assert RowValid(rows[i], sends[i], lost[i]);
    }

    /** enqueueWebhook: a webhook not accepted at once is queued without its card data. */
    method Enqueue(p: Payload, fire: Fire, insertFails: bool, now: nat)
      requires Valid()
      modifies this
      ensures Valid()
      ensures rows == if fire.Accepted? || insertFails then old(rows)
                      else old(rows) + [Row(Redact(p), 1, now + 30000, false)]
      ensures |rows| > |old(rows)| ==>
                sends == old(sends) + [if fire == NotSent then 0 else 1] && lost == old(lost) + [0]
    {
      if fire.Accepted? || insertFails { return; }
      RedactedOnly(p, p);
      rows := rows + [Row(Redact(p), 1, now + RetryDelays[0], false)];
      sends, lost := sends + [if fire.Refused? then 1 else 0], lost + [0];
    }

    /**
     * retryWebhooks: every due row is rehydrated and fired. `fires` and `recorded` say what became of
     * each, and whether the process lived to record it.
     */
    method RetryWebhooks(now: nat, later: nat, orders: map<string, Card>, vault: Vault, fires: nat -> Fire,
                         recorded: nat -> bool)
      requires Valid() && now <= later
      modifies this
      ensures Valid() && |rows| == |old(rows)|
      ensures forall i :: 0 <= i < |rows| ==>
                rows[i] == AfterTick(old(rows)[i], now, later, orders, vault, fires(i), recorded(i))
                && Counted(old(rows)[i], now, orders, vault, fires(i), recorded(i), old(sends)[i], sends[i],
                           old(lost)[i], lost[i])
    {
      hide Rehydrate, Retried, RowValid;
      for i := 0 to |rows|
        invariant Valid() && |rows| == |old(rows)|
        invariant forall j :: i <= j < |rows| ==>
                    rows[j] == old(rows)[j] && sends[j] == old(sends)[j] && lost[j] == old(lost)[j]
        invariant forall j :: 0 <= j < i ==>
                    rows[j] == AfterTick(old(rows)[j], now, later, orders, vault, fires(j), recorded(j))
                    && Counted(old(rows)[j], now, orders, vault, fires(j), recorded(j), old(sends)[j],
                               sends[j], old(lost)[j], lost[j])
      {
        if Due(rows[i], now) {
          var retry := RetryOf(rows[i], orders, vault, fires(i), recorded(i));
          RetryKeepsValid(rows[i], sends[i], lost[i], retry, now, later);
          if Sent(retry) { sends := sends[i := sends[i] + 1]; }
          if !Recorded(retry) { lost := lost[i := lost[i] + 1]; }
          rows := rows[i := Retried(rows[i], retry, now, later)];
        }
      }
    }
  }

  function RetryOf(r: Row, orders: map<string, Card>, vault: Vault, fire: Fire, recorded: bool): Retry {
    if Rehydrate(r.payload, orders, vault).None? then VaultFailure else Fired(fire, recorded)
  }

  /** One send is counted for a due row whose webhook went out, and one loss if that was not recorded. */
  predicate Counted(r: Row, now: nat, orders: map<string, Card>, vault: Vault, fire: Fire, recorded: bool, sends: nat,
                    sends': nat, lost: nat, lost': nat) {
    var fired := Due(r, now) && Rehydrate(r.payload, orders, vault).Some?;
    && sends' == sends + (if fired && fire != NotSent then 1 else 0)
    && lost' == lost + (if fired && !recorded then 1 else 0)
  }

  /** A field that is there and that the vault does not open. */
  predicate Stuck(vault: Vault, field: Option<string>) {
    field.Some? && field.value != "" && vault.open(field.value).None?
  }

  /** The webhook is given up unsent exactly when its delivery lacks a card that its order holds but the vault keeps. */
  lemma VaultFailureIff(r: Row, orders: map<string, Card>, vault: Vault, fire: Fire, recorded: bool)
    ensures !RetryOf(r, orders, vault, fire, recorded).VaultFailure? ==>
              RetryOf(r, orders, vault, fire, recorded) == Fired(fire, recorded)
    ensures RetryOf(r, orders, vault, fire, recorded).VaultFailure? <==>
            && r.payload.status == "delivered" && r.payload.card.Some? && r.payload.card.value.number.None?
            && r.payload.orderId != "" && HoldsCard(orders, r.payload.orderId)
            && var held := orders[r.payload.orderId];
               Stuck(vault, held.number) || Stuck(vault, held.cvv) || Stuck(vault, held.expiry)
  {}

  /** A row after one tick of the job: retried if it was due. */
  function AfterTick(
    r: Row, now: nat, later: nat, orders: map<string, Card>, vault: Vault, fire: Fire, recorded: bool): Row
  {
    if Due(r, now) then Retried(r, RetryOf(r, orders, vault, fire, recorded), now, later) else r
  }

  /** No card data at rest, and at most four sends besides the unrecorded ones. */
  predicate RowValid(r: Row, sends: nat, lost: nat) {
    && !CarriesCardData(r.payload)
    && 1 <= r.attempts <= MaxAttempts + 1 && (r.delivered ==> r.attempts <= MaxAttempts)
    && sends <= r.attempts + lost + if r.delivered then 1 else 0
  }

  lemma RetryKeepsValid(r: Row, sends: nat, lost: nat, retry: Retry, now: nat, later: nat)
    requires RowValid(r, sends, lost) && Due(r, now)
    ensures RowValid(Retried(r, retry, now, later),
                     sends + if Sent(retry) then 1 else 0, lost + if Recorded(retry) then 0 else 1)
  {}
}
