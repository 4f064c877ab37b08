/** The donation collection behind `POST /save-payment`. The database is
    modelled as the sequence of records it holds and a flag for whether its
    connection is up; the handler appends to it only after every check has
    passed. */
module Store {
  import opened Common
  import opened Payments

  /** The success body: `{ success: true, donationId, paymentId }`. The
      identifier the database assigns is modelled as the record's position. */
  datatype Receipt = Receipt(donationId: nat, paymentId: string)

  class DonationStore {
    /** The stored donations, oldest first. */
    var records: seq<Donation>
    /** Whether the connection is open (`readyState === 1`). */
    var ready: bool

    /** Only handler-built records are ever stored. */
    ghost predicate Valid()
      reads this
    {
      forall i :: 0 <= i < |records| ==> WellFormed(records[i])
    }

    constructor (connected: bool)
      ensures Valid()
      ensures records == [] && ready == connected
    {
      records := [];
      ready := connected;
    }

    /** The connection opens or drops; the stored records stay as they are. */
    method SetConnected(connected: bool)
      requires Valid()
      modifies this`ready
      ensures Valid()
      ensures ready == connected && records == old(records)
    {
      ready := connected;
    }

    /** The `/save-payment` handler. Every early return leaves the collection as
        it was; success appends exactly the record `SaveDecision` builds and
        answers with its position and the form's payment id. A record is
        appended only for a form whose signature matched. */
    method SavePayment(form: PaymentForm, secret: Option<string>, mac: Mac) returns (r: Result<Receipt>)
      requires Valid()
      modifies this`records
      ensures Valid()
      ensures SaveDecision(form, secret, mac, ready).Err? ==>
                r == Err(SaveDecision(form, secret, mac, ready).failure) && records == old(records)
      ensures SaveDecision(form, secret, mac, ready).Ok? ==>
                r == Ok(Receipt(|old(records)|, form.paymentId.value))
                && records == old(records) + [SaveDecision(form, secret, mac, ready).value]
      ensures |records| != |old(records)| ==>
                HasIds(form) && secret.Some? && SignatureMatches(form, secret.value, mac)
    {
      var verdict := Verify(form, secret, mac);
      if verdict.Err? {
        return Err(verdict.failure);
      }
      if !ready {
        return Err(Failure(Unavailable, DatabaseUnavailable));
      }
      var record := BuildRecord(form);
      if record.Err? {
        return Err(record.failure);
      }
      records := records + [record.value];
      r := Ok(Receipt(|records| - 1, form.paymentId.value));
    }
  }

  /** The store does not deduplicate: the same verified form submitted twice
      to a connected store is saved twice, under two identifiers, as two equal
      records. */
  method DuplicateSubmission(form: PaymentForm, secret: Option<string>, mac: Mac)
    returns (first: Result<Receipt>, second: Result<Receipt>, stored: seq<Donation>)
    requires SaveDecision(form, secret, mac, true).Ok?
    ensures first.Ok? && second.Ok?
    ensures first.value.paymentId == second.value.paymentId
    ensures first.value.donationId != second.value.donationId
    ensures |stored| == 2 && stored[0] == stored[1]
  {
    var store := new DonationStore(true);
    first := store.SavePayment(form, secret, mac);
    second := store.SavePayment(form, secret, mac);
    stored := store.records;
  }

  /** A store whose connection has dropped refuses every form, verified or
      not, and stores nothing. */
  method DisconnectedStoresNothing(form: PaymentForm, secret: Option<string>, mac: Mac)
    returns (r: Result<Receipt>, stored: seq<Donation>)
    ensures r.Err? && stored == []
    ensures r.failure.status == Unavailable
            <==> HasIds(form) && secret.Some? && SignatureMatches(form, secret.value, mac)
  {
    var store := new DonationStore(true);
    store.SetConnected(false);
    r := store.SavePayment(form, secret, mac);
    stored := store.records;
  }
}
