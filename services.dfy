/** The `consultations` and `serviceSelections` tables: two public mutations
    that append a submitted form, and a newest-first listing of consultations. */
module Services {
  import opened Js
  import opened Tables

  /** A consultations row without its submittedAt stamp; the service is optional. */
  datatype Consultation = Consultation(name: string, email: string, message: string, service: Option<string>)

  /** A serviceSelections row without its selectedAt stamp; the tier is
      optional, and the price is any number the validator accepts, NaN included. */
  datatype ServiceSelection = ServiceSelection(
    service: string,
    tier: Option<string>,
    customerEmail: string,
    customerName: string,
    price: JsNumber)

  /** The `{ success: true }` acknowledgement both mutations return. */
  datatype Ack = Ack(success: bool)

  /** `submitConsultation`: appends one row equal to the arguments plus
      submittedAt and acknowledges it. Writes the consultations table only. */
  method SubmitConsultation(consultations: Table<Consultation>, args: Consultation) returns (ack: Ack)
    requires consultations.Valid()
    modifies consultations
    ensures consultations.Valid()
    ensures consultations.rows == old(consultations.rows) + [Stamped(args, old(consultations.clock))]
    ensures ack.success
  {
    consultations.Insert(args);
    ack := Ack(true);
  }

  /** `selectService`: appends one row equal to the arguments plus selectedAt
      and acknowledges it. Writes the serviceSelections table only. */
  method SelectService(selections: Table<ServiceSelection>, args: ServiceSelection) returns (ack: Ack)
    requires selections.Valid()
    modifies selections
    ensures selections.Valid()
    ensures selections.rows == old(selections.rows) + [Stamped(args, old(selections.clock))]
    ensures ack.success
  {
    selections.Insert(args);
    ack := Ack(true);
  }

  /** `getConsultations`: every consultation, newest first. Reads the table only. */
  method GetConsultations(consultations: Table<Consultation>) returns (list: seq<Stamped<Consultation>>)
    requires consultations.Valid()
    ensures |list| == |consultations.rows|
    ensures forall k :: 0 <= k < |list| ==> list[k] == consultations.rows[|consultations.rows| - 1 - k]
    ensures forall i, j :: 0 <= i < j < |list| ==> list[i].at > list[j].at
  {
    list := consultations.Collect();
  }
}
