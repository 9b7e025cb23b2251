/** Records and enumerations shared by the whole dashboard, mirroring the
    zod schemas of the type declarations. Numbers are JavaScript numbers in
    the source; every field here only ever holds an integer, so it is `int`. */
module Types {

  datatype Option<+T> = None | Some(value: T)

  /** The four machine states; nothing else is a machine status. */
  datatype MachineStatus = Running | Idle | Alarm | Offline

  /** The status as it is spelled in the source ("RUNNING", ...). */
  function StatusName(s: MachineStatus): (r: string)
    ensures |r| > 0
  {
    match s
    case Running => "RUNNING"
    case Idle => "IDLE"
    case Alarm => "ALARM"
    case Offline => "OFFLINE"
  }

  /** The enumeration's parse: exactly the four spellings are statuses. */
  function ParseStatus(name: string): (r: Option<MachineStatus>)
    ensures r.Some? ==> StatusName(r.value) == name
  {
    if name == "RUNNING" then Some(Running)
    else if name == "IDLE" then Some(Idle)
    else if name == "ALARM" then Some(Alarm)
    else if name == "OFFLINE" then Some(Offline)
    else None
  }

  /** Every status is accepted under its own spelling, so spelling and
      parsing are inverse. */
  lemma StatusRoundTrip(s: MachineStatus)
    ensures ParseStatus(StatusName(s)) == Some(s)
  {
    assert "IDLE" != "RUNNING" && "ALARM" != "RUNNING" && "OFFLINE" != "RUNNING";
    assert "ALARM" != "IDLE" && "OFFLINE" != "IDLE" && "OFFLINE" != "ALARM";
  }

  datatype Machine = Machine(
    id: string,
    name: string,
    machineType: string,
    status: MachineStatus,
    product: string,
    progress: int,
    rpm: int,
    load: int,
    zone: string)

  datatype HourlyData = HourlyData(
    time: string,
    target: int,
    actual: int,
    cumulativeTarget: int,
    cumulativeActual: int,
    efficiency: int)

  datatype MaintenanceStatus = Pending | InProgress | Completed

  datatype MaintenanceRecord = MaintenanceRecord(
    id: string,
    machine: string,
    recordType: string,
    status: MaintenanceStatus,
    date: string,
    technician: string)

  datatype AlarmLevel = Critical | Warning | Info

  function LevelName(l: AlarmLevel): (r: string)
    ensures |r| > 0
  {
    match l
    case Critical => "CRITICAL"
    case Warning => "WARNING"
    case Info => "INFO"
  }

  function ParseLevel(name: string): (r: Option<AlarmLevel>)
    ensures r.Some? ==> LevelName(r.value) == name
  {
    if name == "CRITICAL" then Some(Critical)
    else if name == "WARNING" then Some(Warning)
    else if name == "INFO" then Some(Info)
    else None
  }

  lemma LevelRoundTrip(l: AlarmLevel)
    ensures ParseLevel(LevelName(l)) == Some(l)
  {
    assert "WARNING" != "CRITICAL" && "INFO" != "CRITICAL" && "INFO" != "WARNING";
  }

  datatype AlarmHistory = AlarmHistory(
    id: string,
    machine: string,
    code: string,
    message: string,
    time: string,
    level: AlarmLevel)

  datatype NotificationType = AlarmNotice | InfoNotice | SuccessNotice | ErrorNotice

  function NotificationTypeName(t: NotificationType): (r: string)
    ensures |r| > 0
  {
    match t
    case AlarmNotice => "ALARM"
    case InfoNotice => "INFO"
    case SuccessNotice => "SUCCESS"
    case ErrorNotice => "ERROR"
  }

  function ParseNotificationType(name: string): (r: Option<NotificationType>)
    ensures r.Some? ==> NotificationTypeName(r.value) == name
  {
    if name == "ALARM" then Some(AlarmNotice)
    else if name == "INFO" then Some(InfoNotice)
    else if name == "SUCCESS" then Some(SuccessNotice)
    else if name == "ERROR" then Some(ErrorNotice)
    else None
  }

  lemma NotificationTypeRoundTrip(t: NotificationType)
    ensures ParseNotificationType(NotificationTypeName(t)) == Some(t)
  {
    assert "INFO" != "ALARM" && "SUCCESS" != "ALARM" && "ERROR" != "ALARM";
    assert "SUCCESS" != "INFO" && "ERROR" != "INFO" && "ERROR" != "SUCCESS";
  }

  /** `level` is optional in the schema and only meant for alarms. */
  datatype Notification = Notification(
    id: string,
    noticeType: NotificationType,
    title: string,
    message: string,
    time: string,
    level: Option<AlarmLevel>)

  datatype AssetStatus = Active | Maintenance

  datatype Asset = Asset(
    id: string,
    name: string,
    assetType: string,
    model: string,
    serialNumber: string,
    location: string,
    purchaseDate: string,
    status: AssetStatus,
    value: int,
    warrantyExp: string)

  datatype GatewayStatus = Online | GatewayWarning | GatewayOffline

  datatype Gateway = Gateway(
    id: string,
    name: string,
    ip: string,
    protocol: string,
    status: GatewayStatus,
    devices: int,
    throughput: string,
    lastHeartbeat: string)
}
