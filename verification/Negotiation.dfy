/**
 Capability negotiation: how option lists become capabilities on each side, the two checks made
 during initialization, and what the outcome of the handshake means.
 */
module Negotiation {
  import opened Messages

  /** The optional parts a server can be given; an option sets one of them, possibly to nil. */
  datatype ServerSlot =
    | PromptServer | PromptListUpdater
    | ResourceServer | ResourceListUpdater | ResourceSubscribedUpdater
    | ToolServer | ToolListUpdater
    | RootsListWatcher | LogHandler | ProgressReporter

  datatype ClientSlot =
    | RootsListHandler | RootsListUpdater | SamplingHandler
    | PromptListWatcher | ResourceListWatcher | ResourceSubscribedWatcher | ToolListWatcher
    | ProgressListener | LogReceiver

  datatype Setting<Slot> = Setting(slot: Slot, present: bool)

  datatype ServerRequirement = ServerRequirement(promptServer: bool, resourceServer: bool, toolServer: bool)
  datatype ClientRequirement = ClientRequirement(rootsList: bool, sampling: bool)

  // ----- options, applied in order

  /** A slot is filled by an option list when the last option for it sets a non-nil value. */
  ghost predicate FilledBy<Slot(!new)>(options: seq<Setting<Slot>>, slot: Slot) {
    exists i :: 0 <= i < |options| && options[i] == Setting(slot, true)
      && forall j :: i < j < |options| ==> options[j].slot != slot
  }

  /** Applies the options one after the other; later options overwrite earlier ones. */
  method ApplyOptions<Slot(==,!new)>(options: seq<Setting<Slot>>) returns (parts: set<Slot>)
    ensures forall slot :: slot in parts <==> FilledBy(options, slot)
  {
    parts := {};
    for n := 0 to |options|
      invariant forall slot :: slot in parts <==> FilledBy(options[..n], slot)
    {
      ghost var before := options[..n];
      ghost var after := options[..n + 1];
      if options[n].present {
        parts := parts + {options[n].slot};
      } else {
        parts := parts - {options[n].slot};
      }
      forall slot ensures slot in parts <==> FilledBy(after, slot) {
        FilledByOneMore(before, options[n], slot);
        assert after == before + [options[n]];
      }
    }
    assert options[..|options|] == options;
  }

  lemma FilledByOneMore<Slot(!new)>(options: seq<Setting<Slot>>, last: Setting<Slot>, slot: Slot)
    ensures FilledBy(options + [last], slot) <==>
              if last.slot == slot then last.present else FilledBy(options, slot)
  {
    var all := options + [last];
    if last.slot == slot {
      assert all[|options|] == last;
    }
    if last.slot != slot && FilledBy(all, slot) {
      var i :| 0 <= i < |all| && all[i] == Setting(slot, true)
        && forall j :: i < j < |all| ==> all[j].slot != slot;
      assert options[i] == Setting(slot, true);
      assert forall j :: i < j < |options| ==> options[j] == all[j];
    }
    if last.slot != slot && FilledBy(options, slot) {
      var i :| 0 <= i < |options| && options[i] == Setting(slot, true)
        && forall j :: i < j < |options| ==> options[j].slot != slot;
      assert all[i] == Setting(slot, true);
    }
  }

  // ----- capabilities derived from the parts

  function OfferedByServer(parts: set<ServerSlot>): ServerCapabilities {
    ServerCapabilities(
      if PromptServer in parts then Some(PromptsCapability(PromptListUpdater in parts)) else None,
      if ResourceServer in parts
      then Some(ResourcesCapability(ResourceSubscribedUpdater in parts, ResourceListUpdater in parts)) else None,
      if ToolServer in parts then Some(ToolsCapability(ToolListUpdater in parts)) else None,
      LogHandler in parts)
  }

  function RequiredByServer(parts: set<ServerSlot>, requirement: ClientRequirement): ClientCapabilities {
    ClientCapabilities(
      if requirement.rootsList then Some(RootsCapability(RootsListWatcher in parts)) else None,
      requirement.sampling)
  }

  function OfferedByClient(parts: set<ClientSlot>): ClientCapabilities {
    ClientCapabilities(
      if RootsListHandler in parts then Some(RootsCapability(RootsListUpdater in parts)) else None,
      SamplingHandler in parts)
  }

  function RequiredByClient(parts: set<ClientSlot>, requirement: ServerRequirement): ServerCapabilities {
    ServerCapabilities(
      if requirement.promptServer then Some(PromptsCapability(PromptListWatcher in parts)) else None,
      if requirement.resourceServer
      then Some(ResourcesCapability(ResourceSubscribedWatcher in parts, ResourceListWatcher in parts)) else None,
      if requirement.toolServer then Some(ToolsCapability(ToolListWatcher in parts)) else None,
      LogReceiver in parts)
  }

  // ----- the two checks, with the branches of the source

  datatype Missing =
    | MissingRoots | MissingRootsListChanged | MissingSampling
    | MissingPrompts | MissingPromptsListChanged
    | MissingResources | MissingResourcesListChanged | MissingResourcesSubscribe
    | MissingTools | MissingToolsListChanged
    | MissingLogging

  /** The server's check of what the client offers. */
  function CheckClient(required: ClientCapabilities, offered: ClientCapabilities): Option<Missing> {
    if required.roots.Some? && offered.roots.None? then Some(MissingRoots)
    else if required.roots.Some? && required.roots.value.listChanged && !offered.roots.value.listChanged
    then Some(MissingRootsListChanged)
    else if required.sampling && !offered.sampling then Some(MissingSampling)
    else None
  }

  /** The client's check of what the server offers. */
  function CheckServer(required: ServerCapabilities, offered: ServerCapabilities): Option<Missing> {
    if required.prompts.Some? && offered.prompts.None? then Some(MissingPrompts)
    else if required.prompts.Some? && required.prompts.value.listChanged && !offered.prompts.value.listChanged
    then Some(MissingPromptsListChanged)
    else if required.resources.Some? && offered.resources.None? then Some(MissingResources)
    else if required.resources.Some? && required.resources.value.listChanged && !offered.resources.value.listChanged
    then Some(MissingResourcesListChanged)
    else if required.resources.Some? && required.resources.value.subscribe && !offered.resources.value.subscribe
    then Some(MissingResourcesSubscribe)
    else if required.tools.Some? && offered.tools.None? then Some(MissingTools)
    else if required.tools.Some? && required.tools.value.listChanged && !offered.tools.value.listChanged
    then Some(MissingToolsListChanged)
    else if required.logging && !offered.logging then Some(MissingLogging)
    else None
  }

  // ----- the componentwise order on capabilities

  /** What a capability record can name. */
  datatype Feature =
    | RootsFeature | RootsListChangedFeature | SamplingFeature
    | PromptsFeature | PromptsListChangedFeature
    | ResourcesFeature | ResourcesListChangedFeature | ResourcesSubscribeFeature
    | ToolsFeature | ToolsListChangedFeature
    | LoggingFeature

  predicate ServerNames(c: ServerCapabilities, f: Feature) {
    match f
    case PromptsFeature => c.prompts.Some?
    case PromptsListChangedFeature => c.prompts.Some? && c.prompts.value.listChanged
    case ResourcesFeature => c.resources.Some?
    case ResourcesListChangedFeature => c.resources.Some? && c.resources.value.listChanged
    case ResourcesSubscribeFeature => c.resources.Some? && c.resources.value.subscribe
    case ToolsFeature => c.tools.Some?
    case ToolsListChangedFeature => c.tools.Some? && c.tools.value.listChanged
    case LoggingFeature => c.logging
    case _ => false
  }

  predicate ClientNames(c: ClientCapabilities, f: Feature) {
    match f
    case RootsFeature => c.roots.Some?
    case RootsListChangedFeature => c.roots.Some? && c.roots.value.listChanged
    case SamplingFeature => c.sampling
    case _ => false
  }

  /** `required` is below `offered` in the componentwise order. */
  ghost predicate ServerCovers(offered: ServerCapabilities, required: ServerCapabilities) {
    forall f :: ServerNames(required, f) ==> ServerNames(offered, f)
  }

  ghost predicate ClientCovers(offered: ClientCapabilities, required: ClientCapabilities) {
    forall f :: ClientNames(required, f) ==> ClientNames(offered, f)
  }

  /** The client's check accepts exactly when every required feature is offered. */
  lemma CheckServerIsOrder(required: ServerCapabilities, offered: ServerCapabilities)
    ensures CheckServer(required, offered).None? <==> ServerCovers(offered, required)
  {
    if ServerCovers(offered, required) {
      assert ServerNames(required, PromptsFeature) ==> ServerNames(offered, PromptsFeature);
      assert ServerNames(required, PromptsListChangedFeature) ==> ServerNames(offered, PromptsListChangedFeature);
      assert ServerNames(required, ResourcesFeature) ==> ServerNames(offered, ResourcesFeature);
      assert ServerNames(required, ResourcesListChangedFeature) ==> ServerNames(offered, ResourcesListChangedFeature);
      assert ServerNames(required, ResourcesSubscribeFeature) ==> ServerNames(offered, ResourcesSubscribeFeature);
      assert ServerNames(required, ToolsFeature) ==> ServerNames(offered, ToolsFeature);
      assert ServerNames(required, ToolsListChangedFeature) ==> ServerNames(offered, ToolsListChangedFeature);
      assert ServerNames(required, LoggingFeature) ==> ServerNames(offered, LoggingFeature);
    }
  }

  /** The server's check accepts exactly when every required feature is offered. */
  lemma CheckClientIsOrder(required: ClientCapabilities, offered: ClientCapabilities)
    ensures CheckClient(required, offered).None? <==> ClientCovers(offered, required)
  {
    if ClientCovers(offered, required) {
      assert ClientNames(required, RootsFeature) ==> ClientNames(offered, RootsFeature);
      assert ClientNames(required, RootsListChangedFeature) ==> ClientNames(offered, RootsListChangedFeature);
      assert ClientNames(required, SamplingFeature) ==> ClientNames(offered, SamplingFeature);
    }
  }

  /** The interface pairs of the package documentation that have a capability field. */
  ghost predicate InterfacesMatch(
    clientOptions: seq<Setting<ClientSlot>>, clientNeeds: ServerRequirement,
    serverOptions: seq<Setting<ServerSlot>>, serverNeeds: ClientRequirement)
  {
    && (clientNeeds.promptServer ==>
          FilledBy(serverOptions, PromptServer)
          && (FilledBy(clientOptions, PromptListWatcher) ==> FilledBy(serverOptions, PromptListUpdater)))
    && (clientNeeds.resourceServer ==>
          FilledBy(serverOptions, ResourceServer)
          && (FilledBy(clientOptions, ResourceListWatcher) ==> FilledBy(serverOptions, ResourceListUpdater))
          && (FilledBy(clientOptions, ResourceSubscribedWatcher) ==>
                FilledBy(serverOptions, ResourceSubscribedUpdater)))
    && (clientNeeds.toolServer ==>
          FilledBy(serverOptions, ToolServer)
          && (FilledBy(clientOptions, ToolListWatcher) ==> FilledBy(serverOptions, ToolListUpdater)))
    && (FilledBy(clientOptions, LogReceiver) ==> FilledBy(serverOptions, LogHandler))
    && (serverNeeds.rootsList ==>
          FilledBy(clientOptions, RootsListHandler)
          && (FilledBy(serverOptions, RootsListWatcher) ==> FilledBy(clientOptions, RootsListUpdater)))
    && (serverNeeds.sampling ==> FilledBy(clientOptions, SamplingHandler))
  }

  // ----- what the package documentation asks for, against what the handshake checks

  /** The families that a side requires are provided by the other side. */
  ghost predicate FamiliesProvided(
    clientOptions: seq<Setting<ClientSlot>>, clientNeeds: ServerRequirement,
    serverOptions: seq<Setting<ServerSlot>>, serverNeeds: ClientRequirement)
  {
    && (clientNeeds.promptServer ==> FilledBy(serverOptions, PromptServer))
    && (clientNeeds.resourceServer ==> FilledBy(serverOptions, ResourceServer))
    && (clientNeeds.toolServer ==> FilledBy(serverOptions, ToolServer))
    && (serverNeeds.rootsList ==> FilledBy(clientOptions, RootsListHandler))
    && (serverNeeds.sampling ==> FilledBy(clientOptions, SamplingHandler))
  }

  /** All the interface pairs that the documentation lists: who watches needs someone to watch. */
  ghost predicate DocumentedPairs(clientOptions: seq<Setting<ClientSlot>>, serverOptions: seq<Setting<ServerSlot>>) {
    && (FilledBy(serverOptions, RootsListWatcher) ==> FilledBy(clientOptions, RootsListUpdater))
    && (FilledBy(clientOptions, PromptListWatcher) ==> FilledBy(serverOptions, PromptListUpdater))
    && (FilledBy(clientOptions, ResourceListWatcher) ==> FilledBy(serverOptions, ResourceListUpdater))
    && (FilledBy(clientOptions, ResourceSubscribedWatcher) ==> FilledBy(serverOptions, ResourceSubscribedUpdater))
    && (FilledBy(clientOptions, ToolListWatcher) ==> FilledBy(serverOptions, ToolListUpdater))
    && (FilledBy(clientOptions, ProgressListener) ==> FilledBy(serverOptions, ProgressReporter))
    && (FilledBy(clientOptions, LogReceiver) ==> FilledBy(serverOptions, LogHandler))
  }

  /** The pairs the handshake does not look at: those of families nobody requires, and progress. */
  ghost predicate UncheckedPairs(
    clientOptions: seq<Setting<ClientSlot>>, clientNeeds: ServerRequirement,
    serverOptions: seq<Setting<ServerSlot>>, serverNeeds: ClientRequirement)
  {
    && (!serverNeeds.rootsList && FilledBy(serverOptions, RootsListWatcher) ==>
          FilledBy(clientOptions, RootsListUpdater))
    && (!clientNeeds.promptServer && FilledBy(clientOptions, PromptListWatcher) ==>
          FilledBy(serverOptions, PromptListUpdater))
    && (!clientNeeds.resourceServer ==>
          && (FilledBy(clientOptions, ResourceListWatcher) ==> FilledBy(serverOptions, ResourceListUpdater))
          && (FilledBy(clientOptions, ResourceSubscribedWatcher) ==>
                FilledBy(serverOptions, ResourceSubscribedUpdater)))
    && (!clientNeeds.toolServer && FilledBy(clientOptions, ToolListWatcher) ==>
          FilledBy(serverOptions, ToolListUpdater))
    && (FilledBy(clientOptions, ProgressListener) ==> FilledBy(serverOptions, ProgressReporter))
  }

  /**
   The strict matching of the documentation is what the handshake checks plus the unchecked pairs:
   an accepted handshake keeps the documented promise exactly when those pairs match too.
   */
  lemma DocumentedIsCheckedPlusUnchecked(
    clientOptions: seq<Setting<ClientSlot>>, clientNeeds: ServerRequirement,
    serverOptions: seq<Setting<ServerSlot>>, serverNeeds: ClientRequirement)
    ensures FamiliesProvided(clientOptions, clientNeeds, serverOptions, serverNeeds)
            && DocumentedPairs(clientOptions, serverOptions)
            <==> InterfacesMatch(clientOptions, clientNeeds, serverOptions, serverNeeds)
                 && UncheckedPairs(clientOptions, clientNeeds, serverOptions, serverNeeds)
  {
  }

  /** A handshake that goes through although the documented progress pair is missing its server half. */
  lemma ProgressPairIsNotChecked()
    ensures InterfacesMatch([Setting(ProgressListener, true)], ServerRequirement(false, false, false),
                            [], ClientRequirement(false, false))
    ensures !DocumentedPairs([Setting(ProgressListener, true)], [])
  {
    var options := [Setting(ProgressListener, true)];
    assert options[0] == Setting(ProgressListener, true);
    assert FilledBy(options, ProgressListener);
  }

  /** Another: a client that watches prompt lists but does not require prompts, and a server without any. */
  lemma UnrequiredPairIsNotChecked()
    ensures InterfacesMatch([Setting(PromptListWatcher, true)], ServerRequirement(false, false, false),
                            [], ClientRequirement(false, false))
    ensures !DocumentedPairs([Setting(PromptListWatcher, true)], [])
  {
    var options := [Setting(PromptListWatcher, true)];
    assert options[0] == Setting(PromptListWatcher, true);
    assert FilledBy(options, PromptListWatcher);
  }

  /**
   Runs both constructors and both checks on two option lists.  The handshake goes through exactly
   when the interface pairs with a capability field match; then the families are provided, and all
   the documented pairs match exactly when those that the handshake does not look at do.
   */
  method Negotiate(
    clientOptions: seq<Setting<ClientSlot>>, clientNeeds: ServerRequirement,
    serverOptions: seq<Setting<ServerSlot>>, serverNeeds: ClientRequirement)
    returns (accepted: bool)
    ensures accepted <==> InterfacesMatch(clientOptions, clientNeeds, serverOptions, serverNeeds)
    ensures accepted ==> FamiliesProvided(clientOptions, clientNeeds, serverOptions, serverNeeds)
    ensures accepted ==>
              (DocumentedPairs(clientOptions, serverOptions)
               <==> UncheckedPairs(clientOptions, clientNeeds, serverOptions, serverNeeds))
  {
    var clientParts := ApplyOptions(clientOptions);
    var serverParts := ApplyOptions(serverOptions);
    var atServer := CheckClient(RequiredByServer(serverParts, serverNeeds), OfferedByClient(clientParts));
    var atClient := CheckServer(RequiredByClient(clientParts, clientNeeds), OfferedByServer(serverParts));
    accepted := atServer.None? && atClient.None?;
    DocumentedIsCheckedPlusUnchecked(clientOptions, clientNeeds, serverOptions, serverNeeds);
  }
}
