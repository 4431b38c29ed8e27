/** The matching session of the real-time socket server.
    The server keeps two single slots shared by every connection: the last
    service request a seeker sent (`userRequestData`) and the current offer
    built for an expert close enough to it (`serviceData`). Three events drive
    them: `service-request`, `expertLocation` and `accept-service`. Each
    handler starts an asynchronous gRPC call and finishes its work in the
    call's callback, so each is modelled as a request step and a callback
    step, with the call's outcome passed to the callback step.

    The step functions below work on a `Session` value (the two slots plus a
    log of broadcasts and a log of outgoing calls); `Run` plays any
    interleaving of events and callback deliveries on the single event loop;
    the class `SocketService` holds the two slots as fields and its methods
    are proved to perform the step functions. */
module Matching {
  import opened JsStrings

  /** A geographic position, carried along but never inspected here. */
  datatype Location = Location(lat: real, lng: real)

  /** The `service-request` payload, stored as is in `userRequestData`. */
  datatype UserRequest = UserRequest(userId: string, location: Location, service: string, notes: string)

  /** A user record as the user service returns it. */
  datatype User = User(
    message: string, id: string, name: string, email: string, mobile: int, userImage: string,
    password: Option<string>, accountStatus: Option<string>)

  /** The part of the seeker's record copied into an offer. */
  datatype UserData = UserData(name: string, email: string, mobile: int, userImage: string)

  /** The `serviceData` record: the offer built for one expert, later
      extended with the expert's price, a PIN and the created job's id. A
      missing field is None. */
  datatype ServiceData = ServiceData(
    userData: UserData, location: Location, service: string, notes: string,
    distance: real, expertId: string,
    totalAmount: Option<real>, ratePerHour: Option<real>, pin: Option<int>, jobId: Option<string>)

  /** The result of the distance computation, a JavaScript number: a value
      in kilometres, or NaN (when the stored location lacks coordinates). */
  datatype Distance = Km(km: real) | NaN

  /** The proximity radius, in kilometres. */
  const Radius: real := 5.0

  /** `distance <= 5`, which is false for NaN. */
  predicate WithinRadius(d: Distance) {
    d.Km? && d.km <= Radius
  }

  /** The radius test is inclusive, and NaN is never within it. */
  lemma WithinRadiusBoundary(km: real)
    ensures WithinRadius(Km(Radius)) && !WithinRadius(NaN)
    ensures WithinRadius(Km(km)) <==> km <= 5.0
  {
  }

  /** Events broadcast to every connection with `io.emit`. */
  datatype Broadcast =
    | NearbyExperts(expertIds: seq<string>)
    | NewServiceRequest(offer: ServiceData)
    | ExpertConfirmation(jobId: string, expertId: string)

  /** Outgoing gRPC calls. */
  datatype Call =
    | GetOnlineExperts(serviceId: string)
    | GetUser(userId: string)
    | CreateService(serviceData: ServiceData)

  /** The result of `GetOnlineExperts`; its list may be missing. */
  datatype OnlineExperts = OnlineExperts(expertIds: Option<seq<string>>)

  /** How each gRPC call ends: an error, or a result that may be missing. */
  datatype ExpertsReply = ExpertsFailed | ExpertsFound(result: Option<OnlineExperts>)
  datatype UserReply = UserFailed | UserFound(result: Option<User>)
  datatype CreateReply = CreateFailed | Created(result: Option<string>)

  /** The `accept-service` payload. */
  datatype AcceptData = AcceptData(totalAmount: Option<real>, ratePerHour: Option<real>)

  /** What the `GetUser` callback of `expertLocation` captured before the
      call: the reporting expert and the request as it was stored then. */
  datatype LookupContext = LookupContext(
    expertId: string, location: Location, service: string, notes: string, distance: real)

  /** The two slots, with the broadcasts and calls made so far. */
  datatype Session = Session(
    userRequestData: Option<UserRequest>,
    serviceData: Option<ServiceData>,
    emitted: seq<Broadcast>,
    calls: seq<Call>)

  const Initial := Session(None, None, [], [])

  /** The negotiation fields of a record, the ones `accept-service` and the
      create callback add. */
  predicate NoNegotiation(d: ServiceData) {
    d.totalAmount.None? && d.ratePerHour.None? && d.pin.None? && d.jobId.None?
  }

  /** The record with its negotiation fields cleared: what was offered. */
  function OfferPart(d: ServiceData): ServiceData {
    d.(totalAmount := None, ratePerHour := None, pin := None, jobId := None)
  }

  // ---------------------------------------------------------------------
  // service-request

  /** Request step: the payload overwrites the single request slot, whoever
      sent the earlier one, and the online experts offering the service are
      looked up. Nothing else changes. */
  function ServiceRequest(s: Session, data: UserRequest): (r: Session)
    ensures r.userRequestData == Some(data)
    ensures r.serviceData == s.serviceData && r.emitted == s.emitted
    ensures r.calls == s.calls + [GetOnlineExperts(data.service)]
  {
    s.(userRequestData := Some(data), calls := s.calls + [GetOnlineExperts(data.service)])
  }

  /** Callback step of `GetOnlineExperts`: the list is broadcast only when
      the call succeeded and returned a non-empty list; the slots are never
      touched. */
  function OnlineExpertsReplied(s: Session, reply: ExpertsReply): (r: Session)
    ensures r.userRequestData == s.userRequestData && r.serviceData == s.serviceData
    ensures r.calls == s.calls
    ensures r.emitted != s.emitted <==>
      reply.ExpertsFound? && reply.result.Some? && reply.result.value.expertIds.Some?
      && |reply.result.value.expertIds.value| > 0
    ensures r.emitted != s.emitted ==> r.emitted == s.emitted + [NearbyExperts(reply.result.value.expertIds.value)]
  {
    match reply
    case ExpertsFailed => s
    case ExpertsFound(result) =>
      if result.Some? && result.value.expertIds.Some? && |result.value.expertIds.value| > 0 then
        s.(emitted := s.emitted + [NearbyExperts(result.value.expertIds.value)])
      else s
  }

  // ---------------------------------------------------------------------
  // expertLocation

  datatype Located = Located(session: Session, lookup: Option<LookupContext>)

  /** Request step: with a stored request and the expert within the radius,
      the seeker is looked up and the callback captures the request as it is
      now; otherwise nothing happens at all. The request slot is never
      written and the offer slot is not written before the callback. */
  function ExpertLocation(s: Session, expertId: string, distance: Distance): (r: Located)
    ensures r.session.userRequestData == s.userRequestData
    ensures r.session.serviceData == s.serviceData && r.session.emitted == s.emitted
    ensures r.lookup.Some? <==> s.userRequestData.Some? && WithinRadius(distance)
    ensures r.lookup.None? ==> r.session == s
    ensures r.lookup.Some? ==>
      var req := s.userRequestData.value;
      && r.session.calls == s.calls + [GetUser(req.userId)]
      && r.lookup.value == LookupContext(expertId, req.location, req.service, req.notes, distance.km)
  {
    match s.userRequestData
    case None => Located(s, None)
    case Some(req) =>
      if WithinRadius(distance) then
        Located(s.(calls := s.calls + [GetUser(req.userId)]),
                Some(LookupContext(expertId, req.location, req.service, req.notes, distance.km)))
      else Located(s, None)
  }

  /** The offer built from the captured request and the seeker's record:
      only name, email, mobile and image are taken from the record, and no
      negotiation field is present. */
  function Offer(ctx: LookupContext, u: User): (d: ServiceData)
    ensures d.userData == UserData(u.name, u.email, u.mobile, u.userImage)
    ensures d.expertId == ctx.expertId && d.distance == ctx.distance
    ensures d.location == ctx.location && d.service == ctx.service && d.notes == ctx.notes
    ensures NoNegotiation(d)
  {
    ServiceData(UserData(u.name, u.email, u.mobile, u.userImage), ctx.location, ctx.service, ctx.notes,
                ctx.distance, ctx.expertId, None, None, None, None)
  }

  /** Callback step of `GetUser`: a returned record replaces the offer slot
      wholesale and the new offer is broadcast; an error or a missing record
      changes nothing. */
  function UserLookupReplied(s: Session, ctx: LookupContext, reply: UserReply): (r: Session)
    ensures r.userRequestData == s.userRequestData && r.calls == s.calls
    ensures reply.UserFound? && reply.result.Some? ==>
      && r.serviceData == Some(Offer(ctx, reply.result.value))
      && r.emitted == s.emitted + [NewServiceRequest(Offer(ctx, reply.result.value))]
    ensures !(reply.UserFound? && reply.result.Some?) ==> r == s
  {
    match reply
    case UserFailed => s
    case UserFound(result) =>
      match result
      case None => s
      case Some(u) =>
        var offer := Offer(ctx, u);
        s.(serviceData := Some(offer), emitted := s.emitted + [NewServiceRequest(offer)])
  }

  // ---------------------------------------------------------------------
  // accept-service

  /** Request step: with no current offer nothing happens. Otherwise the
      price, the rate and the fresh PIN are merged into the offer, every
      other field is kept, and exactly one `CreateService` call carries the
      merged record. */
  function AcceptService(s: Session, data: AcceptData, pin: int): (r: Session)
    ensures s.serviceData.None? ==> r == s
    ensures s.serviceData.Some? ==> r.serviceData.Some?
    ensures s.serviceData.Some? ==>
      var d := r.serviceData.value;
      && d.totalAmount == data.totalAmount && d.ratePerHour == data.ratePerHour && d.pin == Some(pin)
      && d.jobId == s.serviceData.value.jobId
      && OfferPart(d) == OfferPart(s.serviceData.value)
      && r.calls == s.calls + [CreateService(d)]
    ensures r.userRequestData == s.userRequestData && r.emitted == s.emitted
  {
    match s.serviceData
    case None => s
    case Some(current) =>
      var merged := current.(totalAmount := data.totalAmount, ratePerHour := data.ratePerHour, pin := Some(pin));
      s.(serviceData := Some(merged), calls := s.calls + [CreateService(merged)])
  }

  /** Callback step of `CreateService`: a truthy job id is merged into the
      offer slot as it is at callback time, if it holds one, and the
      confirmation carries that id and the slot's expert; an error, a falsy
      result or an empty slot changes nothing. */
  function CreateServiceReplied(s: Session, reply: CreateReply): (r: Session)
    ensures r.userRequestData == s.userRequestData && r.calls == s.calls
    ensures reply.Created? && Truthy(reply.result) && s.serviceData.Some? ==>
      && r.serviceData == Some(s.serviceData.value.(jobId := reply.result))
      && r.emitted == s.emitted + [ExpertConfirmation(reply.result.value, s.serviceData.value.expertId)]
    ensures !(reply.Created? && Truthy(reply.result) && s.serviceData.Some?) ==> r == s
  {
    match reply
    case CreateFailed => s
    case Created(result) =>
      if Truthy(result) && s.serviceData.Some? then
        var updated := s.serviceData.value.(jobId := result);
        s.(serviceData := Some(updated), emitted := s.emitted + [ExpertConfirmation(result.value, updated.expertId)])
      else s
  }

  // ---------------------------------------------------------------------
  // Properties of single steps and of short interleavings

  /** The request slot keeps only the last request: two requests in a row,
      from any seekers, leave the second, and both service lookups go out. */
  lemma LastRequestWins(s: Session, first: UserRequest, second: UserRequest)
    ensures var r := ServiceRequest(ServiceRequest(s, first), second);
      && r.userRequestData == Some(second)
      && r.calls == s.calls + [GetOnlineExperts(first.service), GetOnlineExperts(second.service)]
  {
  }

  /** A returned record replaces the offer slot wholesale: the new offer does
      not depend on what the slot held before, so an earlier price, rate, PIN
      or job id is dropped. */
  lemma OfferReplacesWholesale(s: Session, t: Session, ctx: LookupContext, u: User)
    ensures UserLookupReplied(s, ctx, UserFound(Some(u))).serviceData
         == UserLookupReplied(t, ctx, UserFound(Some(u))).serviceData
    ensures NoNegotiation(UserLookupReplied(s, ctx, UserFound(Some(u))).serviceData.value)
  {
  }

  /** The user-lookup callback uses the request captured before the call:
      when a new `service-request` lands while the lookup is in flight, the
      offer still carries the earlier request's location, service and notes,
      while the request slot holds the new one. */
  lemma StaleLookupUsesCapturedRequest(s: Session, expertId: string, d: Distance, newer: UserRequest, u: User)
    requires s.userRequestData.Some? && WithinRadius(d)
    ensures var l := ExpertLocation(s, expertId, d);
      var s2 := ServiceRequest(l.session, newer);
      var s3 := UserLookupReplied(s2, l.lookup.value, UserFound(Some(u)));
      var old_req := s.userRequestData.value;
      && s3.userRequestData == Some(newer)
      && s3.serviceData.Some?
      && s3.serviceData.value.location == old_req.location
      && s3.serviceData.value.service == old_req.service
      && s3.serviceData.value.notes == old_req.notes
  {
  }

  /** `accept-service` is not idempotent: accepting twice issues two
      `CreateService` calls, and the second carries the second price. */
  lemma AcceptTwiceCreatesTwice(s: Session, a1: AcceptData, p1: int, a2: AcceptData, p2: int)
    requires s.serviceData.Some?
    ensures var s1 := AcceptService(s, a1, p1);
      var s2 := AcceptService(s1, a2, p2);
      && |s2.calls| == |s.calls| + 2
      && s2.calls[|s.calls|].CreateService? && s2.calls[|s.calls| + 1].CreateService?
      && s2.calls[|s.calls| + 1].serviceData.totalAmount == a2.totalAmount
      && s2.calls[|s.calls| + 1].serviceData.pin == Some(p2)
  {
  }

  /** The create callback reads the offer slot as it is when the reply
      arrives. If another expert's offer replaced it while `CreateService`
      was in flight, the job id is merged into that offer, the confirmation
      names that other expert, and the accepted price and PIN are gone. */
  lemma ConfirmationFollowsCurrentOffer(
    s: Session, accept: AcceptData, pin: int, ctx: LookupContext, u: User, jobId: string)
    requires s.serviceData.Some? && jobId != ""
    ensures var s1 := AcceptService(s, accept, pin);
      var s2 := UserLookupReplied(s1, ctx, UserFound(Some(u)));
      var s3 := CreateServiceReplied(s2, Created(Some(jobId)));
      && s1.calls[|s1.calls| - 1].serviceData.expertId == s.serviceData.value.expertId
      && s1.calls[|s1.calls| - 1].serviceData.pin == Some(pin)
      && s3.serviceData == Some(Offer(ctx, u).(jobId := Some(jobId)))
      && s3.emitted[|s3.emitted| - 1] == ExpertConfirmation(jobId, ctx.expertId)
      && s3.serviceData.value.pin.None? && s3.serviceData.value.totalAmount.None?
  {
  }

  /** A failed `CreateService` keeps the merged price and PIN and adds no
      job id. */
  lemma CreateFailureKeepsMergedOffer(s: Session, accept: AcceptData, pin: int)
    requires s.serviceData.Some?
    ensures var s1 := AcceptService(s, accept, pin);
      var s2 := CreateServiceReplied(s1, CreateFailed);
      && s2.serviceData == s1.serviceData
      && s2.serviceData.value.pin == Some(pin)
      && s2.serviceData.value.jobId == s.serviceData.value.jobId
  {
  }

  // ---------------------------------------------------------------------
  // The event loop: any interleaving of handlers and callback deliveries

  /** A callback the gRPC client still holds. */
  datatype Pending = ExpertsPending | LookupPending(ctx: LookupContext) | CreatePending

  datatype Reply = ExpertsReplied(experts: ExpertsReply) | UserReplied(user: UserReply) | CreateReplied(create: CreateReply)

  /** One turn of the event loop: an inbound socket event, or the delivery
      of the reply to the `index`-th outstanding call. */
  datatype Event =
    | ServiceRequestEvent(data: UserRequest)
    | ExpertLocationEvent(expertId: string, distance: Distance)
    | AcceptServiceEvent(accept: AcceptData, pin: int)
    | ReplyEvent(index: nat, reply: Reply)

  datatype World = World(session: Session, outstanding: seq<Pending>)

  /** One turn. A request step adds the callback of the call it starts; a
      reply removes its callback and runs it. A reply that names no
      outstanding call, or the wrong kind of call, cannot happen and changes
      nothing. */
  function Step(w: World, e: Event): (r: World)
    ensures w.session.emitted <= r.session.emitted && w.session.calls <= r.session.calls
    ensures !e.ReplyEvent? ==> |r.outstanding| == |w.outstanding| + |r.session.calls| - |w.session.calls|
    ensures e.ReplyEvent? ==> r.session.calls == w.session.calls && |r.outstanding| <= |w.outstanding|
  {
    match e
    case ServiceRequestEvent(data) =>
      World(ServiceRequest(w.session, data), w.outstanding + [ExpertsPending])
    case ExpertLocationEvent(expertId, distance) =>
      var l := ExpertLocation(w.session, expertId, distance);
      World(l.session, if l.lookup.Some? then w.outstanding + [LookupPending(l.lookup.value)] else w.outstanding)
    case AcceptServiceEvent(accept, pin) =>
      World(AcceptService(w.session, accept, pin),
            if w.session.serviceData.Some? then w.outstanding + [CreatePending] else w.outstanding)
    case ReplyEvent(i, reply) =>
      if i < |w.outstanding| then
        var rest := w.outstanding[..i] + w.outstanding[i + 1..];
        match (w.outstanding[i], reply)
        case (ExpertsPending, ExpertsReplied(r)) => World(OnlineExpertsReplied(w.session, r), rest)
        case (LookupPending(ctx), UserReplied(r)) => World(UserLookupReplied(w.session, ctx, r), rest)
        case (CreatePending, CreateReplied(r)) => World(CreateServiceReplied(w.session, r), rest)
        case _ => w
      else w
  }

  /** Turns played in order. Broadcasts and calls are only ever appended,
      and every outstanding callback belongs to a call already issued. */
  function Run(w: World, events: seq<Event>): (r: World)
    ensures w.session.emitted <= r.session.emitted && w.session.calls <= r.session.calls
    ensures |r.outstanding| <= |w.outstanding| + |r.session.calls| - |w.session.calls|
    decreases |events|
  {
    if events == [] then w else Run(Step(w, events[0]), events[1..])
  }

  /** What every broadcast satisfies: an expert list is non-empty, an offer
      is within the radius and carries no negotiation field, a confirmation
      carries a non-empty job id. */
  predicate BroadcastOk(b: Broadcast) {
    match b
    case NearbyExperts(ids) => |ids| > 0
    case NewServiceRequest(offer) => offer.distance <= Radius && NoNegotiation(offer)
    case ExpertConfirmation(jobId, _) => jobId != ""
  }

  /** The invariant of the event loop. */
  predicate Inv(w: World) {
    && (w.session.serviceData.Some? ==>
          w.session.serviceData.value.distance <= Radius
          && (w.session.serviceData.value.jobId.Some? ==> w.session.serviceData.value.jobId.value != ""))
    && (forall k :: k in w.outstanding && k.LookupPending? ==> k.ctx.distance <= Radius)
    && (forall b :: b in w.session.emitted ==> BroadcastOk(b))
    && (forall c :: c in w.session.calls && c.CreateService? ==>
          c.serviceData.pin.Some? && c.serviceData.distance <= Radius)
  }

  lemma InitialInv()
    ensures Inv(World(Initial, []))
  {
  }

  /** Every turn keeps the invariant. */
  lemma StepKeepsInv(w: World, e: Event)
    requires Inv(w)
    ensures Inv(Step(w, e))
  {
    match e
    case ServiceRequestEvent(data) =>
    case ExpertLocationEvent(expertId, distance) =>
    case AcceptServiceEvent(accept, pin) =>
    case ReplyEvent(i, reply) =>
      if i < |w.outstanding| {
        var rest := w.outstanding[..i] + w.outstanding[i + 1..];
        assert forall k :: k in rest ==> k in w.outstanding;
      }
  }

  /** Whatever the interleaving, an offer is only ever held or broadcast for
      an expert within the radius, a broadcast offer never carries a price,
      PIN or job id, every `CreateService` call carries a PIN, and a job id
      is never empty. */
  lemma {:induction false} RunKeepsInv(w: World, events: seq<Event>)
    requires Inv(w)
    ensures Inv(Run(w, events))
    decreases |events|
  {
    if events != [] {
      StepKeepsInv(w, events[0]);
      RunKeepsInv(Step(w, events[0]), events[1..]);
    }
  }

  /** Only `service-request` writes the request slot: neither
      `expertLocation`, `accept-service` nor any callback touches it. */
  lemma {:induction false} OnlyServiceRequestWritesRequest(w: World, events: seq<Event>)
    requires forall i :: 0 <= i < |events| ==> !events[i].ServiceRequestEvent?
    ensures Run(w, events).session.userRequestData == w.session.userRequestData
    decreases |events|
  {
    if events != [] {
      OnlyServiceRequestWritesRequest(Step(w, events[0]), events[1..]);
    }
  }

  /** A reply to a user lookup is the only thing that can put a different
      offer in the slot: without one, the slot stays empty when empty, and
      otherwise keeps its offered part (expert, seeker, place, service,
      notes, distance) while prices, PIN and job id come and go. */
  lemma {:induction false} OfferChangesOnlyByLookup(w: World, events: seq<Event>)
    requires forall i :: 0 <= i < |events| ==> !(events[i].ReplyEvent? && events[i].reply.UserReplied?)
    ensures var sd := Run(w, events).session.serviceData;
      && (w.session.serviceData.None? ==> sd.None?)
      && (w.session.serviceData.Some? ==> sd.Some? && OfferPart(sd.value) == OfferPart(w.session.serviceData.value))
    decreases |events|
  {
    if events != [] {
      var w1 := Step(w, events[0]);
      assert w1.session.serviceData.None? <==> w.session.serviceData.None?;
      assert w.session.serviceData.Some? ==>
        OfferPart(w1.session.serviceData.value) == OfferPart(w.session.serviceData.value);
      OfferChangesOnlyByLookup(w1, events[1..]);
    }
  }

  // ---------------------------------------------------------------------
  // The socket server's state, updated in place

  /** The two slots as fields, updated in place by the handlers, beside
      logs of what the server broadcasts and of the calls it issues. */
  class SocketService {
    var userRequestData: Option<UserRequest>
    var serviceData: Option<ServiceData>
    var emitted: seq<Broadcast>
    var calls: seq<Call>

    ghost function State(): Session
      reads this
    {
      Session(userRequestData, serviceData, emitted, calls)
    }

    constructor ()
      ensures State() == Initial
    {
      userRequestData := None;
      serviceData := None;
      emitted := [];
      calls := [];
    }

    /** `service-request`, up to issuing `GetOnlineExperts`. */
    method OnServiceRequest(data: UserRequest)
      modifies this
      ensures State() == ServiceRequest(old(State()), data)
    {
      userRequestData := Some(data);
      calls := calls + [GetOnlineExperts(data.service)];
    }

    /** The `GetOnlineExperts` callback. */
    method OnOnlineExperts(reply: ExpertsReply)
      modifies this
      ensures State() == OnlineExpertsReplied(old(State()), reply)
    {
      if reply.ExpertsFailed? {
        return;
      }
      var result := reply.result;
      if result.Some? && result.value.expertIds.Some? && |result.value.expertIds.value| > 0 {
        emitted := emitted + [NearbyExperts(result.value.expertIds.value)];
      }
    }

    /** `expertLocation`, up to issuing `GetUser`; returns what the callback
      captured, or None when no lookup was started. */
    method OnExpertLocation(expertId: string, distance: Distance) returns (lookup: Option<LookupContext>)
      modifies this
      ensures Located(State(), lookup) == ExpertLocation(old(State()), expertId, distance)
    {
      lookup := None;
      if userRequestData.Some? {
        var req := userRequestData.value;
        if WithinRadius(distance) {
          calls := calls + [GetUser(req.userId)];
          lookup := Some(LookupContext(expertId, req.location, req.service, req.notes, distance.km));
        }
      }
    }

    /** The `GetUser` callback, with the values captured at the request. */
    method OnUserLookup(ctx: LookupContext, reply: UserReply)
      modifies this
      ensures State() == UserLookupReplied(old(State()), ctx, reply)
    {
      if reply.UserFailed? {
        return;
      }
      if reply.result.Some? {
        var u := reply.result.value;
        serviceData := Some(Offer(ctx, u));
        emitted := emitted + [NewServiceRequest(serviceData.value)];
      }
    }

    /** `accept-service`, up to issuing `CreateService`. */
    method OnAcceptService(data: AcceptData, pin: int)
      modifies this
      ensures State() == AcceptService(old(State()), data, pin)
    {
      if serviceData.Some? {
        serviceData := Some(serviceData.value.(totalAmount := data.totalAmount,
                                               ratePerHour := data.ratePerHour, pin := Some(pin)));
        calls := calls + [CreateService(serviceData.value)];
      }
    }

    /** The `CreateService` callback; it reads the offer slot afresh. */
    method OnCreateService(reply: CreateReply)
      modifies this
      ensures State() == CreateServiceReplied(old(State()), reply)
    {
      if reply.CreateFailed? {
        return;
      }
      var result := reply.result;
      if Truthy(result) {
        var jobId := result.value;
        if serviceData.Some? {
          serviceData := Some(serviceData.value.(jobId := Some(jobId)));
          emitted := emitted + [ExpertConfirmation(serviceData.value.jobId.value, serviceData.value.expertId)];
        }
      }
    }
  }

  /** A client of the class: two experts report while one accept is in
      flight, and the confirmation goes to the second. */
  method ConfirmationRaceOnService(seeker: UserRequest, u: User, price: AcceptData, pin: int)
    returns (confirmation: Broadcast)
    ensures confirmation == ExpertConfirmation("job-1", "E2")
  {
    var io := new SocketService();
    io.OnServiceRequest(seeker);
    var first := io.OnExpertLocation("E1", Km(1.0));
    io.OnUserLookup(first.value, UserFound(Some(u)));
    io.OnAcceptService(price, pin);
    var second := io.OnExpertLocation("E2", Km(2.0));
    io.OnUserLookup(second.value, UserFound(Some(u)));
    io.OnCreateService(Created(Some("job-1")));
    confirmation := io.emitted[|io.emitted| - 1];
  }
}
