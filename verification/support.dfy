/**
 * The support page (src/pages/Support.tsx): the FAQ accordion, in which
 * each question opens and closes on its own, and the contact form, which
 * only sends a message that is not blank.
 */
module Support {
  import opened Text

  datatype Faq = Faq(question: string, answer: string, isOpen: bool)

  /** The five questions the page starts with, all closed. */
  const InitialFaqs: seq<Faq> := [
    Faq("Comment suivre ma commande en cours ?",
      "Vous pouvez suivre votre commande en cours en vous rendant dans la section \"Mes Commandes\" accessible depuis le menu latéral. Vous y trouverez toutes les informations concernant vos commandes et leur statut actuel.",
      false),
    Faq("Quels sont les moyens de paiement acceptés ?",
      "Nous acceptons plusieurs moyens de paiement : espèces à la livraison, paiement mobile (Flooz, T-Money), cartes de crédit/débit et virement bancaire pour les commandes professionnelles.",
      false),
    Faq("Comment annuler une commande ?",
      "Vous pouvez annuler une commande en cours en allant dans \"Mes Commandes\", en sélectionnant la commande concernée et en cliquant sur le bouton \"Annuler la commande\". Notez que l'annulation n'est possible que pour les commandes qui n'ont pas encore été préparées.",
      false),
    Faq("Quelle est la zone de livraison ?",
      "Nous livrons dans toute la ville de Lomé et ses environs. Pour les zones plus éloignées, des frais supplémentaires peuvent s'appliquer. Veuillez nous contacter pour confirmer si votre localisation est desservie.",
      false),
    Faq("Comment puis-je signaler un problème avec ma commande ?",
      "En cas de problème avec votre commande, vous pouvez nous contacter par téléphone au +228 90 12 34 56 ou par email à support@specialgout.com. Vous pouvez également utiliser le formulaire de contact sur cette page.",
      false)
  ]

  /** `toggleFaq(index)`: the entry at `index` opens if it was closed and
      closes if it was open; every other entry, and every question and
      answer, is kept. An index outside the list matches no entry. */
  function ToggleFaq(faqs: seq<Faq>, index: int): (r: seq<Faq>)
    ensures |r| == |faqs|
    ensures forall i :: 0 <= i < |faqs| ==> r[i].question == faqs[i].question && r[i].answer == faqs[i].answer
    ensures forall i :: 0 <= i < |faqs| ==> (r[i].isOpen <==> (if i == index then !faqs[i].isOpen else faqs[i].isOpen))
  {
    seq(|faqs|, i requires 0 <= i < |faqs| => if i == index then faqs[i].(isOpen := !faqs[i].isOpen) else faqs[i])
  }

  /** Pressing the same question twice restores the accordion. */
  lemma ToggleFaqTwice(faqs: seq<Faq>, index: int)
    ensures ToggleFaq(ToggleFaq(faqs, index), index) == faqs
  {
    var r := ToggleFaq(ToggleFaq(faqs, index), index);
    assert forall i :: 0 <= i < |faqs| ==> r[i] == faqs[i];
  }

  /** An index outside the list changes nothing. */
  lemma ToggleFaqOutOfRange(faqs: seq<Faq>, index: int)
    requires index < 0 || index >= |faqs|
    ensures ToggleFaq(faqs, index) == faqs
  {
    var r := ToggleFaq(faqs, index);
    assert forall i :: 0 <= i < |faqs| ==> r[i] == faqs[i];
  }

  /** At most one entry differs after a press: the one pressed. */
  lemma ToggleFaqChangesOne(faqs: seq<Faq>, index: int, i: int)
    requires 0 <= i < |faqs| && i != index
    ensures ToggleFaq(faqs, index)[i] == faqs[i]
  {
  }

  /** Every question starts closed. */
  lemma InitialFaqsClosed()
    ensures |InitialFaqs| == 5
    ensures forall i :: 0 <= i < |InitialFaqs| ==> !InitialFaqs[i].isOpen
  {
  }

  /** `handleSubmit`: a message that is blank once trimmed is not sent and
      stays in the box; any other is sent and the box is emptied. Returns
      the new content of the box and whether the message was sent. */
  function Submit(message: string): (r: (string, bool))
    ensures r.1 <==> !AllSpace(message)
    ensures r.1 ==> r.0 == []
    ensures !r.1 ==> r.0 == message
  {
    BlankIffAllSpace(message);
    if !IsBlank(message) then ([], true) else (message, false)
  }

  /** Sending empties the box, so a second press sends nothing. */
  lemma SubmitTwiceSendsOnce(message: string)
    ensures !Submit(Submit(message).0).1
  {
  }
}
