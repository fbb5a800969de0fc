/** The alicloud_vpc_traffic_mirror_service data source: reading it with
    enable = "On" opens the VPC traffic mirror service when it is not open
    yet, and reports it as opened. */
module TrafficMirror {
  import opened Common

  const NotOpenedId := "VpcTrafficMirrorServiceHasNotBeenOpened"
  const OpenedId := "VpcTrafficMirrorServiceHasBeenOpened"

  /** The id and status the data source leaves in state. */
  datatype MirrorState = MirrorState(id: string, status: string)

  const NotOpened := MirrorState(NotOpenedId, "")
  const Opened := MirrorState(OpenedId, "Opened")

  /** One remote call: its action and its request. */
  datatype Sent = Sent(action: string, request: Request)

  /** The service ends up reported as opened: the status query says so, or
      the open call succeeds, or it fails because the service is already
      open (ORDER.OPEND). */
  predicate ReportsOpened(statusCall: Call<Option<bool>>, openCall: Call<()>) {
    statusCall.Ok? && (statusCall.value == Some(true) || openCall.Ok? || openCall.code == "ORDER.OPEND")
  }

  /** The data source's Read. `enable` is "Off" unless set (its default);
      `statusCall` is the GetTrafficMirrorServiceStatus outcome with its
      Enabled flag (None when absent), `openCall` the
      OpenTrafficMirrorService outcome, and the two tokens are those built
      for each action. Both calls share one request map, whose ClientToken
      is replaced before the second call. */
  method Read(enable: string, statusToken: string, openToken: string,
              statusCall: Call<Option<bool>>, openCall: Call<()>)
    returns (sent: seq<Sent>, state: Option<MirrorState>, err: Option<Error>)
    ensures enable != "On" ==> sent == [] && state == Some(NotOpened) && err.None?
    ensures enable == "On" ==>
              && 1 <= |sent| <= 2
              && sent[0] == Sent("GetTrafficMirrorServiceStatus", map["ClientToken" := Str(statusToken)])
              && (|sent| == 2 <==> statusCall.Ok? && statusCall.value != Some(true))
              && (|sent| == 2 ==> sent[1] == Sent("OpenTrafficMirrorService", map["ClientToken" := Str(openToken)]))
              && (state == Some(Opened) <==> ReportsOpened(statusCall, openCall))
              && (err.None? <==> state.Some?)
              && (statusCall.Err? ==> err == Some(RemoteError(statusCall.code)))
              && (!ReportsOpened(statusCall, openCall) && statusCall.Ok? ==> err == Some(RemoteError(openCall.code)))
  {
    if enable != "On" {
      return [], Some(NotOpened), None;
    }
    var request: Request := map[];
    var action := "GetTrafficMirrorServiceStatus";
    request := request["ClientToken" := Str(statusToken)];
    sent := [Sent(action, request)];
    if statusCall.Err? {
      return sent, None, Some(RemoteError(statusCall.code));
    }
    if statusCall.value.Some? && statusCall.value.value {
      return sent, Some(Opened), None;
    }
    action := "OpenTrafficMirrorService";
    request := request["ClientToken" := Str(openToken)];
    sent := sent + [Sent(action, request)];
    if openCall.Err? {
      if openCall.code == "ORDER.OPEND" {
        return sent, Some(Opened), None;
      }
      return sent, None, Some(RemoteError(openCall.code));
    }
    state, err := Some(Opened), None;
  }
}
