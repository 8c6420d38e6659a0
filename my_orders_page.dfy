/** The two status helpers of the "my orders" page
    (frontend/src/pages/MyOrdersPage.tsx): the badge colour and the label
    shown for an order status. Both lower-case the status and switch on it. */
module MyOrdersPage {
  import Common

  datatype StatusColor = Success | Warning | Error | Info

  const Accompli := "Accompli"
  const EnCours := "En cours"
  const Annule := "Annulé"
  const EnTraitement := "En traitement"

  /** Upper-case letters whose lower case this model knows: ASCII A-Z and
      the Latin-1 capitals U+00C0..U+00DE except the multiplication sign. */
  predicate IsUpper(c: char) {
    ('A' <= c <= 'Z') || ('\U{C0}' <= c <= '\U{DE}' && c != '\U{D7}')
  }

  /** Each of those capitals lies 32 code points below its small letter. */
  function Lower(c: char): (d: char)
    ensures IsUpper(c) ==> d as int == c as int + 32
    ensures !IsUpper(d)
    ensures !IsUpper(c) ==> d == c
  {
    if IsUpper(c) then (c as int + 32) as char else c
  }

  /** `String.prototype.toLowerCase`, on the letters above. */
  function ToLowerCase(s: string): (r: string)
    ensures |r| == |s|
    ensures forall i :: 0 <= i < |s| ==> r[i] == Lower(s[i])
    ensures forall i :: 0 <= i < |r| ==> !IsUpper(r[i])
  {
    seq(|s|, i requires 0 <= i < |s| => Lower(s[i]))
  }

  /** Lower-casing twice is lower-casing once. */
  lemma {:induction false} ToLowerCaseIdempotent(s: string)
    ensures ToLowerCase(ToLowerCase(s)) == ToLowerCase(s)
  {
    var once := ToLowerCase(s);
    forall i | 0 <= i < |once|
      ensures ToLowerCase(once)[i] == once[i]
    {
      assert !IsUpper(once[i]);
    }
  }

  // The `case` labels of the two switches, grouped by the branch they reach.
  const SuccessNames: set<string> := {"accompli", "completed", "livré", "livrée"}
  const CompletedNames: set<string> := {"accompli", "completed"}
  const PendingNames: set<string> := {"en_cours", "pending", "en cours"}
  const CancelledNames: set<string> := {"cancelled", "annulé"}
  const ProcessingNames: set<string> := {"processing", "en traitement"}
  const DeliveredNames: set<string> := {"livré", "livrée"}

  /** `getStatusColor`; a missing status (`status?.toLowerCase()` is
      undefined) reaches the default branch. */
  function GetStatusColor(status: Common.Option<string>): (c: StatusColor)
    ensures status.None? ==> c == Warning
  {
    if status.None? then Warning
    else
      var s := ToLowerCase(status.value);
      if s in SuccessNames then Success
      else if s in PendingNames then Warning
      else if s in CancelledNames then Error
      else if s in ProcessingNames then Info
      else Warning
  }

  /** `getStatusText` as written: there is no case for "livré"/"livrée". */
  function GetStatusText(status: Common.Option<string>): (text: string)
    ensures text in {Accompli, EnCours, Annule, EnTraitement}
    ensures status.None? ==> text == EnCours
  {
    if status.None? then EnCours
    else
      var s := ToLowerCase(status.value);
      if s in CompletedNames then Accompli
      else if s in PendingNames then EnCours
      else if s in CancelledNames then Annule
      else if s in ProcessingNames then EnTraitement
      else EnCours
  }

  /** Both helpers ignore letter case: a status and its lower-case form get
      the same colour and the same label. */
  lemma CaseInsensitive(status: string)
    ensures GetStatusColor(Common.Some(status)) == GetStatusColor(Common.Some(ToLowerCase(status)))
    ensures GetStatusText(Common.Some(status)) == GetStatusText(Common.Some(ToLowerCase(status)))
  {
    ToLowerCaseIdempotent(status);
  }

  /** A status no case names falls to the defaults, `warning` and "En cours". */
  lemma UnknownStatusDefaults(status: Common.Option<string>)
    requires status.Some? ==>
               ToLowerCase(status.value) !in SuccessNames + PendingNames + CancelledNames + ProcessingNames
    ensures GetStatusColor(status) == Warning && GetStatusText(status) == EnCours
  {
  }

  lemma CompletedLabels(status: string)
    requires ToLowerCase(status) in CompletedNames
    ensures GetStatusColor(Common.Some(status)) == Success && GetStatusText(Common.Some(status)) == Accompli
  {
  }

  lemma PendingLabels(status: string)
    requires ToLowerCase(status) in PendingNames
    ensures GetStatusColor(Common.Some(status)) == Warning && GetStatusText(Common.Some(status)) == EnCours
  {
  }

  lemma CancelledLabels(status: string)
    requires ToLowerCase(status) in CancelledNames
    ensures GetStatusColor(Common.Some(status)) == Error && GetStatusText(Common.Some(status)) == Annule
  {
  }

  lemma ProcessingLabels(status: string)
    requires ToLowerCase(status) in ProcessingNames
    ensures GetStatusColor(Common.Some(status)) == Info && GetStatusText(Common.Some(status)) == EnTraitement
  {
  }

  /** The status every order starts with, "En Cours", shows as pending. */
  lemma InitialStatusLabels()
    ensures GetStatusColor(Common.Some("En Cours")) == Warning && GetStatusText(Common.Some("En Cours")) == EnCours
  {
    assert ToLowerCase("En Cours") == "en cours";
  }

  /** As written, a delivered order ("Livrée", the other status the order
      schema allows) gets the success colour beside the label "En cours". */
  lemma DeliveredLabelsDisagree()
    ensures GetStatusColor(Common.Some("Livrée")) == Success
    ensures GetStatusText(Common.Some("Livrée")) == EnCours
  {
    assert ToLowerCase("Livrée") == "livrée";
  }

  /** `getStatusText` with the delivered statuses labelled like the other
      success statuses. */
  function GetStatusTextCorrected(status: Common.Option<string>): (text: string)
    ensures text in {Accompli, EnCours, Annule, EnTraitement}
  {
    if status.None? then EnCours
    else
      var s := ToLowerCase(status.value);
      if s in SuccessNames then Accompli
      else if s in PendingNames then EnCours
      else if s in CancelledNames then Annule
      else if s in ProcessingNames then EnTraitement
      else EnCours
  }

  /** With the correction, colour and label always tell the same story:
      each colour goes with exactly one label. */
  lemma ColourMatchesCorrectedText(status: Common.Option<string>)
    ensures GetStatusColor(status) == Success <==> GetStatusTextCorrected(status) == Accompli
    ensures GetStatusColor(status) == Warning <==> GetStatusTextCorrected(status) == EnCours
    ensures GetStatusColor(status) == Error <==> GetStatusTextCorrected(status) == Annule
    ensures GetStatusColor(status) == Info <==> GetStatusTextCorrected(status) == EnTraitement
  {
  }

  /** The correction changes only the delivered statuses. */
  lemma CorrectionOnlyTouchesDelivered(status: Common.Option<string>)
    ensures GetStatusTextCorrected(status) != GetStatusText(status) <==>
              status.Some? && ToLowerCase(status.value) in DeliveredNames
  {
  }

  /** With the correction, both statuses of the order schema get a colour
      and a label that agree: "En Cours" pending, "Livrée" accomplished. */
  lemma CorrectedDeliveredLabels()
    ensures GetStatusColor(Common.Some("Livrée")) == Success && GetStatusTextCorrected(Common.Some("Livrée")) == Accompli
  {
    assert ToLowerCase("Livrée") == "livrée";
  }
}
