/**
  * The message pipeline: `pump` threads a message through the processors in their sorted order,
  * swallowing failures and stopping at a blank result; `broadcast` pumps, renders and delivers the
  * message once per recipient; the built-in foo_sign_strip processor and the set of foo clients it
  * consults.
  */
module Pipeline {
  import opened Common
  import opened Config
  import opened Messages

  /** A registered message processor: its completed result, or the exception it failed with. */
  type Processor = MessageContext -> Result<string, string>

  /** The running result after one processor: its output, or the previous result when it failed. */
  function StepResult(p: Processor, context: MessageContext): string {
    match p(context)
    case Ok(s) => s
    case Err(_) => context.message
  }

  /**
    * The running result after the first k processors, had pump not stopped: the input message,
    * then each processor's result on the context carrying the one before.
    */
  function Running(processors: seq<Processor>, context: MessageContext, k: nat): string
    requires k <= |processors|
    decreases k
  {
    if k == 0 then context.message
    else StepResult(processors[k - 1], context.(message := Running(processors, context, k - 1)))
  }

  /** How many processors pump calls when it has already called k of them: up to the first blank result, or all. */
  function StopFrom(processors: seq<Processor>, context: MessageContext, k: nat): (n: nat)
    requires k <= |processors|
    decreases |processors| - k
    ensures k <= n <= |processors|
  {
    if k == |processors| then k
    else if IsBlank(Running(processors, context, k + 1)) then k + 1
    else StopFrom(processors, context, k + 1)
  }

  /** The number of processors pump calls. */
  function Stop(processors: seq<Processor>, context: MessageContext): nat
    ensures Stop(processors, context) <= |processors|
  {
    StopFrom(processors, context, 0)
  }

  /** What pump completes with. */
  function PumpResult(processors: seq<Processor>, context: MessageContext): string {
    Running(processors, context, Stop(processors, context))
  }

  /** The contexts pump hands to the processors: Calls(...)[k] goes to processors[k]. */
  function Calls(processors: seq<Processor>, context: MessageContext): seq<MessageContext> {
    var n := Stop(processors, context);
    seq(n, k requires 0 <= k < n => context.(message := Running(processors, context, k)))
  }

  /** The first k + 1 calls extend the first k with the context carrying the running result after k processors. */
  lemma CallsPrefixStep(processors: seq<Processor>, context: MessageContext, k: nat)
    requires k < |Calls(processors, context)|
    ensures Calls(processors, context)[..k + 1] ==
      Calls(processors, context)[..k] + [context.(message := Running(processors, context, k))]
  {
  }

  /**
    * From k on, pump goes on past every non-blank result and stops at the first blank one; it
    * calls at least one more processor when one is left.
    */
  lemma {:induction false} StopFromFacts(processors: seq<Processor>, context: MessageContext, k: nat)
    requires k <= |processors|
    decreases |processors| - k
    ensures var n := StopFrom(processors, context, k);
      && (forall j :: k < j < n ==> !IsBlank(Running(processors, context, j)))
      && (n < |processors| ==> IsBlank(Running(processors, context, n)))
      && (k < |processors| ==> k < n)
  {
    if k < |processors| && !IsBlank(Running(processors, context, k + 1)) {
      StopFromFacts(processors, context, k + 1);
    }
  }

  /** With no processors, pump completes with the input message and calls nothing. */
  lemma PumpWithoutProcessors(context: MessageContext)
    ensures PumpResult([], context) == context.message && Calls([], context) == []
  {
  }

  /**
    * pump calls processors in the given order, each at most once; each receives the original
    * context with only the message replaced, and the first receives the input message even when
    * it is blank.
    */
  lemma PumpCallsContexts(processors: seq<Processor>, context: MessageContext)
    ensures |Calls(processors, context)| <= |processors|
    ensures processors != [] ==> |Calls(processors, context)| >= 1 && Calls(processors, context)[0] == context
    ensures forall k :: 0 <= k < |Calls(processors, context)| ==>
      var call := Calls(processors, context)[k];
      call.sender == context.sender && call.target == context.target &&
      call.filter == context.filter && call.kind == context.kind
  {
    StopFromFacts(processors, context, 0);
  }

  /**
    * Each processor after the first receives the running result of the one before: its output
    * when it completed, the unchanged previous result when it failed.
    */
  lemma PumpThreadsResults(processors: seq<Processor>, context: MessageContext)
    ensures var calls := Calls(processors, context);
      forall k :: 0 <= k < |calls| - 1 && k < |processors| ==>
        calls[k + 1].message == (match processors[k](calls[k]) case Ok(s) => s case Err(_) => calls[k].message)
  {
    var calls := Calls(processors, context);
    forall k | 0 <= k < |calls| - 1 && k < |processors|
      ensures calls[k + 1].message == (match processors[k](calls[k]) case Ok(s) => s case Err(_) => calls[k].message)
    {
      assert calls[k + 1].message == Running(processors, context, k + 1);
    }
  }

  /**
    * pump stops at the first blank running result: no result before the last call is blank, the
    * output is the result of the last call, and when a processor was left out the output is blank.
    */
  lemma PumpStopsAtBlank(processors: seq<Processor>, context: MessageContext)
    ensures var calls := Calls(processors, context);
      && (forall k :: 0 <= k < |calls| - 1 && k < |processors| ==> !IsBlank(StepResult(processors[k], calls[k])))
      && (0 < |calls| <= |processors| ==>
            PumpResult(processors, context) == StepResult(processors[|calls| - 1], calls[|calls| - 1]))
      && (|calls| < |processors| ==> IsBlank(PumpResult(processors, context)))
  {
    var calls := Calls(processors, context);
    StopFromFacts(processors, context, 0);
    forall k | 0 <= k < |calls| - 1 && k < |processors|
      ensures !IsBlank(StepResult(processors[k], calls[k]))
    {
      assert StepResult(processors[k], calls[k]) == Running(processors, context, k + 1);
    }
  }

  /** Processor k, called with calls[k], completed with `out`. */
  predicate Produced(processors: seq<Processor>, calls: seq<MessageContext>, k: nat, out: string)
    requires k < |calls| && k < |processors|
  {
    processors[k](calls[k]) == Ok(out)
  }

  /**
    * The running result after k processors is the input message (j = -1) or what a processor j
    * before k completed with.
    */
  lemma {:induction false} RunningOrigin(processors: seq<Processor>, context: MessageContext, k: nat) returns (j: int)
    requires k <= |processors|
    decreases k
    ensures -1 <= j < k
    ensures j == -1 ==> Running(processors, context, k) == context.message
    ensures j >= 0 ==>
      processors[j](context.(message := Running(processors, context, j))) == Ok(Running(processors, context, k))
  {
    if k == 0 {
      j := -1;
    } else {
      var previous := processors[k - 1](context.(message := Running(processors, context, k - 1)));
      if previous.Ok? {
        j := k - 1;
      } else {
        j := RunningOrigin(processors, context, k - 1);
      }
    }
  }

  /** pump's output is its input message or the successful result of one of the processors it invoked. */
  lemma PumpOutputOrigin(processors: seq<Processor>, context: MessageContext)
    ensures var calls := Calls(processors, context);
      PumpResult(processors, context) == context.message ||
      exists k :: 0 <= k < |calls| && k < |processors| && Produced(processors, calls, k, PumpResult(processors, context))
  {
    var calls := Calls(processors, context);
    var j := RunningOrigin(processors, context, Stop(processors, context));
    if j >= 0 {
      assert Produced(processors, calls, j, PumpResult(processors, context));
    }
  }

  /** A character of the foo client's invisible signature: a code in [0xF80, 0x107F). */
  predicate IsSignatureChar(c: char) {
    0xF80 <= c as int < 0x107F
  }

  /**
    * foo_sign_strip's rule: with the compatibility flag on and a foo-client sender, the last
    * min(2, length) characters are dropped when all of them are signature characters.
    */
  function StripFooSign(compatibility: bool, fooSender: bool, message: string): (r: string)
    ensures |r| <= |message| && r == message[..|r|]
    ensures r != message ==>
      compatibility && fooSender && |r| == |message| - Min(2, |message|) &&
      forall i :: |r| <= i < |message| ==> IsSignatureChar(message[i])
    ensures (compatibility && fooSender &&
             forall i :: |message| - Min(2, |message|) <= i < |message| ==> IsSignatureChar(message[i])) ==>
      |r| == |message| - Min(2, |message|)
  {
    var n := Min(2, |message|);
    if compatibility && fooSender && forall i :: |message| - n <= i < |message| ==> IsSignatureChar(message[i])
    then message[..|message| - n]
    else message
  }

  /** What one recipient's branch of broadcast comes to. */
  datatype RecipientOutcome =
    | DroppedByPipeline                                          // the pumped message is blank: nothing rendered or sent
    | DroppedByTemplate(query: PlaceholderContext)                // the rendered template is blank: nothing sent
    | Delivered(query: PlaceholderContext, delivery: Delivery)

  /** The arguments of Audience.sendMessage: the rendered form, the pumped form and the sender shown. */
  datatype Delivery = Delivery(formatted: string, processed: string, shownSender: Audience)

  /** The placeholder query that renders a message with a template. */
  function TemplateQuery(sender: Audience, template: string, processed: string): PlaceholderContext {
    PlaceholderContext(sender, "%template:" + template + "%", map[MessageKey := processed])
  }

  /** The placeholder pipeline's pump, in its default TEXT mode. */
  type Renderer = PlaceholderContext -> string

  class MessagePipelineImpl {
    var config: MessageConfig
    var foo: set<Muuid>

    constructor(config: MessageConfig)
      ensures this.config == config && foo == {}
    {
      this.config := config;
      foo := {};
    }

    /** The "fooCheck" packet handler: the player becomes a foo client. */
    method OnFooCheck(player: Muuid)
      modifies this
      ensures foo == old(foo) + {player} && config == old(config)
      ensures forall a: Audience :: a.Member? && a.muuid == Some(player) ==> IsFooClient(a)
    {
      foo := foo + {player};
    }

    /** A player leaving is no longer a foo client. */
    method OnPlayerQuit(player: Muuid)
      modifies this
      ensures foo == old(foo) - {player} && config == old(config)
      ensures forall a: Audience :: a.Member? && a.muuid == Some(player) ==> !IsFooClient(a)
    {
      foo := foo - {player};
    }

    /** A reload takes the new message settings and keeps the foo clients. */
    method OnFlexConfigReload(config: FlexConfig)
      modifies this
      ensures this.config == config.messages && foo == old(foo)
    {
      this.config := config.messages;
    }

    /**
      * isFooClient: only a recipient that carries a MUUID can be a foo client, and one that does
      * is one exactly when that MUUID is in the set.
      */
    predicate IsFooClient(a: Audience): (b: bool)
      reads this
      ensures b ==> a.Member? && a.muuid.Some?
      ensures a.Member? && a.muuid.Some? ==> (b <==> a.muuid.value in foo)
    {
      match a
      case EmptyAudience => false
      case Member(_, muuid) => muuid.Some? && muuid.value in foo
    }

    /** The foo_sign_strip processor, as it runs on one context. */
    method FooSignStrip(context: MessageContext) returns (r: Result<string, string>)
      ensures r == Ok(StripFooSign(config.fooClientCompatibility, IsFooClient(context.sender), context.message))
    {
      var msg := context.message;
      var n := Min(2, |msg|);
      if config.fooClientCompatibility && IsFooClient(context.sender) &&
         forall i | |msg| - n <= i < |msg| :: IsSignatureChar(msg[i])
      {
        msg := msg[..|msg| - n];
      }
      r := Ok(msg);
    }

    /**
      * pump over the processors in their sorted order. `calls` records the context handed to each
      * processor invoked.
      */
    method Pump(sorted: seq<Processor>, context: MessageContext) returns (result: string, ghost calls: seq<MessageContext>)
      ensures result == PumpResult(sorted, context)
      ensures calls == Calls(sorted, context)
    {
      result := context.message;
      calls := [];
      var i := 0;
      while i < |sorted|
        invariant 0 <= i <= |sorted|
        invariant result == Running(sorted, context, i)
        invariant Stop(sorted, context) == StopFrom(sorted, context, i)
        invariant i <= |Calls(sorted, context)| && calls == Calls(sorted, context)[..i]
      {
        var current := context.(message := result);
        var outcome := sorted[i](current);
        if outcome.Ok? {
          result := outcome.value;
        }
        assert result == Running(sorted, context, i + 1);
        CallsPrefixStep(sorted, context, i);
        calls := calls + [current];
        i := i + 1;
        if IsBlank(result) {
          assert Stop(sorted, context) == i;
          break;
        }
      }
      assert i == Stop(sorted, context);
      assert calls == Calls(sorted, context);
    }

    /** The shown sender: nobody for a foo client under the compatibility flag, else the real sender. */
    function ShownSender(sender: Audience, recipient: Audience): (s: Audience)
      reads this
      ensures config.fooClientCompatibility && IsFooClient(recipient) ==> s == EmptyAudience
      ensures !(config.fooClientCompatibility && IsFooClient(recipient)) ==> s == sender
    {
      if config.fooClientCompatibility && IsFooClient(recipient) then EmptyAudience else sender
    }

    /** One recipient's branch of broadcast. */
    function BroadcastTo(sorted: seq<Processor>, render: Renderer, sender: Audience, recipient: Audience,
                         message: string, template: string): (o: RecipientOutcome)
      reads this
      ensures var processed := PumpResult(sorted, MessageContext(sender, recipient, message));
        && (o.DroppedByPipeline? <==> IsBlank(processed))
        && (!o.DroppedByPipeline? ==> o.query == TemplateQuery(sender, template, processed))
        && (o.Delivered? <==> !IsBlank(processed) && !IsBlank(render(TemplateQuery(sender, template, processed))))
        && (o.Delivered? ==>
              o.delivery.processed == processed && o.delivery.formatted == render(o.query) &&
              !IsBlank(o.delivery.processed) && !IsBlank(o.delivery.formatted) &&
              o.delivery.shownSender == ShownSender(sender, recipient))
    {
      var processed := PumpResult(sorted, MessageContext(sender, recipient, message));
      if IsBlank(processed) then DroppedByPipeline
      else
        var query := TemplateQuery(sender, template, processed);
        var formatted := render(query);
        if IsBlank(formatted) then DroppedByTemplate(query)
        else Delivered(query, Delivery(formatted, processed, ShownSender(sender, recipient)))
    }

    /** broadcast, one branch per recipient of the target, in the target's order. */
    function Broadcast(sorted: seq<Processor>, render: Renderer, sender: Audience, recipients: seq<Audience>,
                       message: string, template: string): (r: seq<RecipientOutcome>)
      reads this
      decreases |recipients|
      ensures |r| == |recipients|
      ensures forall i :: 0 <= i < |recipients| ==> r[i] == BroadcastTo(sorted, render, sender, recipients[i], message, template)
    {
      if recipients == [] then []
      else [BroadcastTo(sorted, render, sender, recipients[0], message, template)]
           + Broadcast(sorted, render, sender, recipients[1..], message, template)
    }

    /** The three-argument broadcast: the chat template. */
    function BroadcastChat(sorted: seq<Processor>, render: Renderer, sender: Audience, recipients: seq<Audience>,
                           message: string): (r: seq<RecipientOutcome>)
      reads this
      ensures r == Broadcast(sorted, render, sender, recipients, message, ChatTemplateName)
      ensures forall i :: 0 <= i < |r| && !r[i].DroppedByPipeline? ==>
        r[i].query.query == "%template:" + ChatTemplateName + "%"
    {
      Broadcast(sorted, render, sender, recipients, message, ChatTemplateName)
    }
  }
}
