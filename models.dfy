/**
  The records the API exchanges and the checks its request bodies apply
  before any store operation: a valid email on client create and update,
  a non-negative `montant` on payment create and update, and update bodies
  whose every field is optional and defaults to `None`.
*/
module Models {
  import opened Results
  import opened Dates
  import Email

  datatype Client = Client(id: int, nom: string, email: string)

  datatype Offre = Offre(id: int, nom: string, debitMbps: Option<int>, prix: Option<int>)

  datatype Abonnement = Abonnement(id: int, clientId: int, offreId: int,
                                   dateDebut: CalendarDate, dateFin: Option<CalendarDate>)

  /** A subscription with the names of its client and offer joined in. */
  datatype AbonnementDetail = AbonnementDetail(abonnement: Abonnement, clientNom: string, offreNom: string)

  /** `montant` in cents. */
  datatype Paiement = Paiement(id: int, abonnementId: int, montant: int, datePaiement: CalendarDate)

  /** A payment with the names of its subscription's client and offer joined in. */
  datatype PaiementDetail = PaiementDetail(paiement: Paiement, clientNom: string, offreNom: string)

  /** An audit entry; `dateAction` is the timestamp as a number that orders entries chronologically. */
  datatype Log = Log(id: int, tableModifiee: string, action: string, dateAction: int)

  /** Why a request body is refused before it reaches the store. */
  datatype RequestError = InvalidEmail | NegativeMontant

  /** The body of a client create or update: both carry the same two fields and the same email check. */
  datatype ClientBody = ClientBody(nom: string, email: string)

  /** Builds a client body; the email must match the address pattern. */
  function ParseClientBody(nom: string, email: string): (r: Result<ClientBody, RequestError>)
    ensures r.Ok? <==> Email.MatchesPattern(email)
    ensures r.Ok? ==> r.value == ClientBody(nom, email)
    ensures r.Err? ==> r.error == InvalidEmail
  {
    match Email.ValidateEmail(email)
    case Ok(e) => Ok(ClientBody(nom, e))
    case Err(_) => Err(InvalidEmail)
  }

  datatype PaiementCreate = PaiementCreate(abonnementId: int, montant: int, datePaiement: CalendarDate)

  /** Builds a payment create body; `montant` must be at least 0. */
  function ParsePaiementCreate(abonnementId: int, montant: int, datePaiement: CalendarDate): (r: Result<PaiementCreate, RequestError>)
    ensures r.Ok? <==> montant >= 0
    ensures r.Ok? ==> r.value == PaiementCreate(abonnementId, montant, datePaiement)
    ensures r.Err? ==> r.error == NegativeMontant
  {
    if montant < 0 then Err(NegativeMontant) else Ok(PaiementCreate(abonnementId, montant, datePaiement))
  }

  /** A subscription update: `None` in a field means "keep the stored value". */
  datatype AbonnementUpdate = AbonnementUpdate(offreId: Option<int>, dateDebut: Option<CalendarDate>, dateFin: Option<CalendarDate>)

  /** The update body with every field left at its default. */
  const NoAbonnementChange := AbonnementUpdate(None, None, None)

  /** A payment update: `None` in a field means "keep the stored value". */
  datatype PaiementUpdate = PaiementUpdate(montant: Option<int>, datePaiement: Option<CalendarDate>)

  /** The update body with every field left at its default. */
  const NoPaiementChange := PaiementUpdate(None, None)

  /** Builds a payment update body; a supplied `montant` must be at least 0, an omitted one is accepted. */
  function ParsePaiementUpdate(montant: Option<int>, datePaiement: Option<CalendarDate>): (r: Result<PaiementUpdate, RequestError>)
    ensures r.Ok? <==> (montant.None? || montant.value >= 0)
    ensures r.Ok? ==> r.value == PaiementUpdate(montant, datePaiement)
    ensures r.Err? ==> r.error == NegativeMontant
  {
    if montant.Some? && montant.value < 0 then Err(NegativeMontant) else Ok(PaiementUpdate(montant, datePaiement))
  }
}
