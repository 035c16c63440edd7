/** The four provider lists of the configuration flow side by side: the card's, the modal's,
    the credential form's and the tester's. Each component carries its own, and they
    disagree. */
module Catalogs {
  import AddServiceModal
  import AddServiceCard
  import ServiceConfigForm
  import ServiceTests

  /** Every (type, provider) pair the modal offers has a credential form, except AI with
      grok. */
  lemma ModalPairsCatalogued(t: AddServiceModal.TypeOption, p: AddServiceModal.ProviderOption)
    requires t in AddServiceModal.ServiceTypes && p in t.providers
    ensures ServiceConfigForm.Catalogued(t.serviceType, p.id) <==> p.id != "grok"
  {
  }

  /** Every provider the modal offers has a connection test, except google_calendar and
      grok. */
  lemma ModalProvidersTested(t: AddServiceModal.TypeOption, p: AddServiceModal.ProviderOption)
    requires t in AddServiceModal.ServiceTypes && p in t.providers
    ensures p.id in ServiceTests.TestFunctions <==> p.id !in {"google_calendar", "grok"}
  {
  }

  /** Grok is offered by both wizards, yet it has no credential fields, so its form is valid
      at once, and no connection test. */
  lemma GrokOfferedButUnsupported()
    ensures AddServiceModal.ProviderOption("grok", "Grok") in AddServiceModal.ServiceTypes[0].providers
    ensures AddServiceCard.CardProvider("grok", "Grok", "Use X's Grok AI model") in AddServiceCard.ProvidersOf(AddServiceCard.AI)
    ensures ServiceConfigForm.FieldsFor("ai", "grok") == []
    ensures "grok" !in ServiceTests.TestFunctions
  {
    AddServiceCard.ProvidersOfEachType(AddServiceCard.AI);
  }

  /** The modal never lists SMTP. */
  lemma ModalLacksSmtp(t: AddServiceModal.TypeOption, p: AddServiceModal.ProviderOption)
    requires t in AddServiceModal.ServiceTypes && p in t.providers
    ensures p.id != "smtp"
  {
  }

  /** SMTP is offered by the card, the form has no fields for it, yet the tester has a check
      for it. */
  lemma SmtpOnlyOnCard()
    ensures AddServiceCard.CardProvider("smtp", "Custom SMTP", "Connect any email service via SMTP")
            in AddServiceCard.ProvidersOf(AddServiceCard.Email)
    ensures ServiceConfigForm.FieldsFor("email", "smtp") == []
    ensures "smtp" in ServiceTests.TestFunctions
  {
    AddServiceCard.ProvidersOfEachType(AddServiceCard.Email);
  }
}
