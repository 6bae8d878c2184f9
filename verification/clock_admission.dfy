/**
 Exactly when a submitted sample is accepted, on the request, the record and the clock
 readings, and what then goes to the refclock.
 */
module ClockAdmission {
  import opened Options
  import opened ClockTypes
  import opened ClockSpec
  import opened ClockDecisions
  import opened ClockWindows

  /** The sample's age at `now`, by its own receipt and age. */
  function AgeAt(r: Request, now: Clock): int {
    now.boot - r.receipt as int + r.sampleAge as int
  }

  /** By how much the sample, moved on to `now`, is ahead of the wall clock. */
  function Ahead(r: Request, now: Clock): int {
    r.utc as int + AgeAt(r, now) - now.wall
  }

  /** An external NTP quality, at most 30 s old at the status reading and within 5 s of the truth. */
  predicate NtpVouches(n: Node, clock: Option<Clock>) {
    var q := n.quality;
    && q.source == Ntp && q.external && clock.Some? && clock.value.boot >= n.qualityBoot
    && 0 <= q.age + (clock.value.boot - n.qualityBoot) <= 30 * SECOND
    && q.uncertainty >= 0.0 && q.uncertainty - 5.0 <= q.residual <= 5.0 - q.uncertainty
  }

  /** A GPS sample is within the uncertainties of the NTP quality and its own. */
  predicate Agrees(q: Quality, r: Request, now: Clock) {
    var bound := (if q.residual < 0.0 then -q.residual else q.residual) + q.uncertainty
        + r.uncertainty as real / 1_000_000_000.0;
    -bound <= Ahead(r, now) as real / 1_000_000_000.0 <= bound
  }

  /** What the request must be for the record it meets. */
  predicate MayEnter(n: Node, i: SubmitInput) {
    && i.request.bootId == n.st.bootId && i.request.generation == n.st.generation && !n.st.fence.preparing
    && FromRefclock(i.request.source) && i.clock3.Some?
    && (i.request.source == Nrf ==> NrfMay(n, i.clock2) && i.clock3.value.boot < n.st.budget.deadline)
  }

  /** Age, uncertainty and time of the sample are within their limits. */
  predicate WithinLimits(r: Request, now: Clock) {
    && (r.deadline == 0 || (r.receipt < r.deadline && now.boot < r.deadline as int))
    && 0 <= r.receipt as int <= now.boot && 0 <= r.sampleAge && AgeAt(r, now) <= 30 * SECOND
    && 0 <= r.uncertainty as int <= (if r.source == Gps then 3 * SECOND else SECOND)
    && 0 < r.utc && r.utc as int + AgeAt(r, now) <= INT64_MAX
  }

  /** An NRF only advances the clock, GPS does not contradict good NTP, and nothing moves it by over a century. */
  predicate MovesSensibly(n: Node, i: SubmitInput)
    requires i.clock3.Some?
  {
    var r, now := i.request, i.clock3.value;
    && (r.source == Nrf ==> Ahead(r, now) > 0)
    && (r.source == Gps && NtpVouches(n, i.clock2) ==> Agrees(n.quality, r, now))
    && -(100 * 365 * 24 * 3600) * SECOND <= Ahead(r, now) <= 100 * 365 * 24 * 3600 * SECOND
  }

  predicate Admissible(n: Node, i: SubmitInput) {
    MayEnter(n, i) && WithinLimits(i.request, i.clock3.value) && MovesSensibly(n, i)
  }

  lemma AgeIsAdmittedExactly(r: Request, now: Clock)
    requires FromRefclock(r.source)
    ensures AdmittedAge(r, now.boot as int64).Some? <==> WithinLimits(r, now)
  {
  }

  lemma OffsetIsAhead(r: Request, now: Clock)
    ensures -INT64_MAX <= Ahead(r, now) <= INT64_MAX ==> OffsetOf(r, now) == Ahead(r, now) as real / 1_000_000_000.0
    ensures !(-INT64_MAX <= Ahead(r, now) <= INT64_MAX) ==> Abs(OffsetOf(r, now)) > 9_000_000_000.0
  {
  }

  lemma VouchesExactly(n: Node, clock: Option<Clock>)
    ensures var q := PublishedQuality(n, clock);
      NtpVouches(n, clock) <==>
        && q.source == Ntp && q.external && 0 <= q.age <= SAMPLE_MAX_AGE && q.uncertainty >= 0.0
        && WithinFive(q.residual, q.uncertainty)
    ensures NtpVouches(n, clock) ==>
      PublishedQuality(n, clock).residual == n.quality.residual
          && PublishedQuality(n, clock).uncertainty == n.quality.uncertainty
  {
  }

  lemma PlausibleExactly(n: Node, i: SubmitInput)
    requires i.clock3.Some?
    ensures PlausibleOffset(i.request, StatusOf(n, i.clock2).quality, OffsetOf(i.request, i.clock3.value)) <==>
        MovesSensibly(n, i)
  {
    OffsetIsAhead(i.request, i.clock3.value);
    VouchesExactly(n, i.clock2);
    hide NtpVouches, PublishedQuality, OffsetOf, Ahead, WithinFive;
  }

  lemma AdmitsExactly(n: Node, i: SubmitInput)
    ensures Admits(n, i) <==> Admissible(n, i)
  {
    NrfIsEligibleExactly(n, i.clock2);
    if i.clock3.Some? {
      PlausibleExactly(n, i);
      if FromRefclock(i.request.source) { AgeIsAdmittedExactly(i.request, i.clock3.value); }
    }
    hide NrfMay, StatusOf, PlausibleOffset, MovesSensibly, WithinLimits, AdmittedAge;
  }

  // ----- The tracking read of an NRF submission -----

  /**
   The report read for an NRF submission confirms external time: GPS with its own sample,
   or external NTP, made after the last loss, at most 30 s old and within 5 s of the truth.
   */
  predicate ReadConfirms(n: Node, i: SubmitInput) {
    && i.request.source == Nrf && i.early.Some? && i.observed.Some? && i.clock1.Some?
    && i.early.value.boot <= i.clock1.value.boot
    && var t: Tracking := i.observed.value; var bt := i.clock1.value.boot; var made := i.early.value.boot - t.age;
    && LiesAfterLoss(n, t, made, bt)
    && if t.source == Gps then
         && Gps in n.samples && Current(n.samples[Gps], bt)
         && Made(n.samples[Gps]) - 2 * SECOND <= made && bt - made <= 30 * SECOND
         && Near(t.residual, t.uncertainty) && Near(t.residual, n.samples[Gps].uncertainty as real / 1_000_000_000.0)
       else t.source == Ntp && t.external && bt - made <= 30 * SECOND && Near(t.residual, t.uncertainty)
  }

  lemma ConfirmationExactly(n: Node, i: SubmitInput)
    ensures Confirmation(n, i).Some? <==> ReadConfirms(n, i)
  {
  }

  // ----- The whole submission -----

  /**
   Exactly when a submission is accepted, and exactly when and what it hands to the refclock:
   the sample with its metadata, and an offset that takes the wall clock it read to the
   sample's time moved on to that reading. A read that confirms external time ends it in
   trust instead. Nothing else in the record changes.
   */
  lemma SubmissionExactly(n: Node, i: SubmitInput)
    ensures var r := Submit(n, i);
      var known := i.clock1.Some? && (i.request.source == Nrf ==> i.early.Some?);
      var enters := known && !ReadConfirms(n, i) && Admissible(n, i);
      && (r.handed.Some? <==> enters && i.saveInvalidated == Written)
      && (r.accepted <==> r.handed.Some? && i.sendOk && i.saveMetadata == Written)
      && (r.handed.Some? ==>
            && r.handed.value.sample == Sample(i.request.receipt as int, i.request.sampleAge as int,
                i.request.uncertainty as int)
            && r.handed.value.wall == i.clock3.value.wall
            && r.handed.value.offset == Ahead(i.request, i.clock3.value) as real / 1_000_000_000.0)
      && (r.accepted ==>
            && r.node.samples == n.samples[i.request.source := r.handed.value.sample]
            && r.node.st == n.st.(samples := r.node.st.samples) && r.node.disk == r.node.st
            && r.node.st.samples == n.st.samples[i.request.source := r.handed.value.sample])
      && (enters && !r.accepted ==> i.request.source !in r.node.samples && i.request.source !in r.node.st.samples)
      && (known && ReadConfirms(n, i) ==>
            && r.node.st.trust.established && r.node.st.trust.afterBoot == 0
            && r.node.st == n.st.(trust := r.node.st.trust) && (i.saveTrust == Written ==> r.node.disk == r.node.st))
      && (!known || (!enters && !ReadConfirms(n, i)) ==> r.node == n)
      && (!ReadConfirms(n, i) ==> r.node.st.trust == n.st.trust)
  {
    AdmitsExactly(n, i);
    ConfirmationExactly(n, i);
    if Admissible(n, i) { OffsetIsAhead(i.request, i.clock3.value); }
    hide Admits, Confirmation, ReadConfirms, OffsetOf, MayEnter, WithinLimits;
    assert n.samples - {i.request.source} + map[i.request.source := SampleOf(i.request)]
        == n.samples[i.request.source := SampleOf(i.request)];
  }
}
