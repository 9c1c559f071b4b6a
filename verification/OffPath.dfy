/** From the scheduler to the node: what the OFF request of a timer becomes in the gateway. */
module OffPath {
  import opened Common
  import opened GatewayTypes
  import opened GatewaySpec
  import opened MqttIntake
  import SchedulerTypes
  import SchedulerSpec
  import SchedulerLog

  /** The message that sendMqttSetRequest publishes, on the topic of the gateway and the local broker. */
  function MessageFor(off: SchedulerTypes.OffRequest): MqttIn {
    MqttIn(Value(MsgSet), Value(off.sender), Value(off.nodeName), Missing, Value([InItem(off.capName, "OFF")]))
  }

  /** In every run of the scheduler an OFF request becomes a SET of the gateway for the node that the timer request
      named, and the node is sent one item: the capability of that timer request, to be OFF. */
  lemma OffReachesTheNode(es: seq<SchedulerSpec.Label>, k: nat)
    requires k < |SchedulerSpec.Run(SchedulerSpec.Initial, es).sent|
    ensures var off := SchedulerSpec.Run(SchedulerSpec.Initial, es).sent[k];
      && off.serial < |SchedulerLog.Granted(es)|
      && var m := SchedulerLog.Granted(es)[off.serial];
      && m.sender.Value? && m.nodeName.Value? && m.capName.Value?
      && Intake(MessageFor(off), LocalClient).Some?
      && var r := Intake(MessageFor(off), LocalClient).value;
      && r.data.Some? && r.data.value.nodeName == m.nodeName.v && r.data.value.broker == LocalClient
      && WireOf(BodyOf(r)) == SendSet(m.sender.v, [WireItem(m.capName.v, Some("OFF"))])
  {
    SchedulerLog.AccountOnRuns(es);
    hide SchedulerSpec.Run, SchedulerLog.Granted;
    var off := SchedulerSpec.Run(SchedulerSpec.Initial, es).sent[k];
    var items := [InItem(off.capName, "OFF")];
    IntakeMeans(MessageFor(off), LocalClient);
    ItemsReachTheNodeReversed(MessageFor(off), LocalClient);
    hide Intake;
    assert ItemsOf(items, true) == [WireItem(off.capName, Some("OFF"))];
    assert Reverse(ItemsOf(items, true)[1..]) == [] && Reverse(ItemsOf(items, true)) == ItemsOf(items, true);
  }
}
