/**
  What the parsers and the job mapper promise together: how the urgency each
  parser can produce shows up as the priority and emergency flag of the mapped job.
*/
module Pipeline {
  import opened Wrappers
  import opened JsText
  import opened WorkOrders
  import Matching
  import RealParser
  import EtsParser
  import Integration

  /**
    The test parser never classifies an order as an emergency, so its jobs are
    never flagged as emergencies and never get the `urgent` priority; and since it
    always geocodes, the geocoding copies always carry coordinates.
  */
  lemma RealParserJobsAreNotEmergencies(pdf: Matching.PdfText, clock: RealParser.Clock,
                                        lookup: string -> RealParser.LookupOutcome, copy: Integration.Copy)
    requires RealParser.ParseWorkOrder(pdf, clock, lookup).Success?
    ensures var job := Integration.ToJobRecord(RealParser.ParseWorkOrder(pdf, clock, lookup).value, copy);
      !job.jobIsEmergency && job.jobPriority != "urgent"
    ensures var job := Integration.ToJobRecord(RealParser.ParseWorkOrder(pdf, clock, lookup).value, copy);
      copy != Integration.AppServiceCopy ==> job.jobLatitude.Some? && job.jobLongitude.Some?
  {
    var w := RealParser.ParseWorkOrder(pdf, clock, lookup).value;
    assert RealParser.WellFormedOrder(w);
    assert w.urgency != Emergency;
  }

  /**
    A document carrying the partner's legal name that the production parser
    accepts becomes an emergency job with the `urgent` priority.
  */
  lemma LegalNameJobsAreUrgent(pdf: Matching.PdfText, copy: Integration.Copy)
    requires pdf.Extracted? && Contains(pdf.scan.text, EtsParser.PartnerMarker)
    requires EtsParser.ParseWorkOrder(pdf).Success?
    ensures var job := Integration.ToJobRecord(EtsParser.ParseWorkOrder(pdf).value, copy);
      job.jobIsEmergency && job.jobPriority == "urgent"
  {
    EtsParser.MarkedOrdersAreEmergencies(pdf);
  }
}
