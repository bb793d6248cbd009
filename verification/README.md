# Feature-flag configuration store

This project models the `featureflags` package of the operator in Dafny.
The package keeps one process-wide configuration of named feature flags.
Each flag is meant to be `"Enabled"` or `"Disabled"`, and the known flags and their defaults come from a registry.
The configuration is a snapshot (a map from flag name to value).
It is built whole by one of two pipelines and then swapped in whole.
After each swap, the subscribers of every flag whose value changed are called.

The model has two modules:

- `FeatureFlags` (`flags.dfy`) holds the registry and the snapshot.
  - The registry is `Registry`, and `Features` is the package's built-in registry with its single flag, `EXAMPLE`.
  - The snapshot is `Config`.
  - The three snapshot builders are specified as functions (`DefaultsOf`, `FromMap`, `FromEnvironment`).
  - The builders are also implemented as loops over a map, as the package runs them (`NewDefaults`, `BuildFromMap`, `BuildFromEnvironment`).
  - The read queries are `IsEnabled` and `IsDisabled` on a snapshot.
- `FeatureStore` (`store.dfy`) holds the store, the class `Store`.
  - The store has the current snapshot, the subscriber lists per flag, and a log of every call made to a subscriber's `Changed` handler.
  - Its operations are the swap, the signal to one flag's subscribers, the update that swaps and then signals each changed flag, the two public update entry points, subscription, and the read wrappers.
  - The module also has lemmas about the calls one update makes.

Go reads a missing map key as the empty string.
The model writes that read as `Lookup(m, k)`.
Go visits map entries in an unspecified order.
So each loop in the model takes its next key by an arbitrary choice (`var k :| k in todo`).
Every property stated across flags therefore holds for every visiting order.
`Store.UpdateConfig` returns, as a ghost value, the order in which it signalled the flags.
Its contract says that this order lists every changed flag exactly once.

Two behaviours of the code worth knowing:

- The environment pipeline stores any non-empty value verbatim, without checking it against `"Enabled"`/`"Disabled"`. So a snapshot built from the environment can hold other values (`EnvironmentValueUnchecked`). Only the map pipeline guarantees allowed values, and only when the defaults are allowed (`FromMapValuesAllowed`).
- `updateConfig` compares the keys of the new snapshot, not the keys of the registry. For snapshots that both cover the registry, the two are the same (`ChangedKeysOverRegistry`).

## Model

| member | source | states |
|---|---|---|
| FeatureFlags.NewDefaults | pkg/featureflags/featureflags.go:110-116 | the snapshot has exactly the registry's flags, each at its registry default |
| FeatureFlags.BuildFromMap | pkg/featureflags/featureflags.go:165-180 | whatever order the entries are visited in, the loop yields the defaults overwritten by the known-flag, allowed-value entries of the input; so repeated calls with the same input give equal snapshots |
| FeatureFlags.BuildFromEnvironment | pkg/featureflags/featureflags.go:138-147 | whatever order the flags are visited in, the loop yields the defaults overwritten by every non-empty environment value of a known flag |
| FeatureFlags.FromMapAt | pkg/featureflags/featureflags.go:165-177 | the map pipeline's key set is exactly the registry's; a known flag takes the input's value when it is "Enabled" or "Disabled", and its default otherwise |
| FeatureFlags.FromMapIgnoresUnknown | pkg/featureflags/featureflags.go:168-172 | adding an entry for an unknown flag does not change the result |
| FeatureFlags.FromMapIgnoresInvalid | pkg/featureflags/featureflags.go:173-175 | an entry whose value is not allowed has the same effect as no entry |
| FeatureFlags.FromMapOnlyKnownKeys | pkg/featureflags/featureflags.go:168-172 | the result depends only on the input's entries for registry flags |
| FeatureFlags.FromMapValuesAllowed | pkg/featureflags/featureflags.go:165-180 | if every default is allowed, every value in the map pipeline's result is "Enabled" or "Disabled" |
| FeatureFlags.FromEnvironmentAt | pkg/featureflags/featureflags.go:138-147 | the environment pipeline's key set is exactly the registry's; a known flag takes its environment value when that value is non-empty, and its default otherwise |
| FeatureFlags.EnvironmentValueUnchecked | pkg/featureflags/featureflags.go:140-144 | an environment value "yes" for EXAMPLE is stored as is, and it is not an allowed value |
| FeatureFlags.UnknownKeyImmunity | pkg/featureflags/featureflags.go:168-172 | the input {"NOT_A_FLAG": "Enabled"} yields the all-defaults snapshot |
| FeatureFlags.InvalidValueImmunity | pkg/featureflags/featureflags.go:173-175 | the input {"EXAMPLE": "Maybe"} leaves EXAMPLE at its default "Enabled" |
| FeatureFlags.IsEnabled | pkg/featureflags/featureflags.go:186-188 | true exactly when the flag is present in the snapshot with the value "Enabled" |
| FeatureFlags.IsDisabled | pkg/featureflags/featureflags.go:190-192 | always the negation of IsEnabled; true for a flag absent from the snapshot |
| FeatureFlags.UnknownFlagReadsDisabled | pkg/featureflags/featureflags.go:186-192 | a flag outside the registry reads as disabled in every snapshot either pipeline builds |
| FeatureStore.WithSubscriber | pkg/featureflags/featureflags.go:213-216 | registering keeps the old list as a prefix and adds at most one element; afterwards the list holds exactly the old members and the new subscriber |
| FeatureStore.WithSubscriberOnce | pkg/featureflags/featureflags.go:213-217 | on a duplicate-free list, registering keeps it duplicate-free and lists the subscriber exactly once |
| FeatureStore.NotificationsCount | pkg/featureflags/featureflags.go:118-127 | one signal calls each listed subscriber once per listing, with the signalled flag and values, and calls nobody else |
| FeatureStore.FanoutOnlySubscribers | pkg/featureflags/featureflags.go:129-136 | every call made while signalling goes to a subscriber of a signalled flag, with that flag's old and new values |
| FeatureStore.FanoutCount | pkg/featureflags/featureflags.go:129-136 | signalling duplicate-free flags calls a subscriber about a flag as often as it is listed for it if the flag was signalled, and never otherwise |
| FeatureStore.ReplacementNotifiesOncePerChange | pkg/featureflags/featureflags.go:129-136 | in one replacement, a subscriber registered once for a flag gets exactly one call with the flag's old and new values if the flag changed, and none if it did not |
| FeatureStore.ReplacementNotifiesOnlySubscribersOfChanges | pkg/featureflags/featureflags.go:129-136 | every call a replacement makes concerns a changed flag and goes to a subscriber registered for that flag |
| FeatureStore.ChangedKeysOverRegistry | pkg/featureflags/featureflags.go:131-132 | for two snapshots over the registry, the changed flags are exactly the registry flags whose values differ |
| FeatureStore.SameConfigIsSilent | pkg/featureflags/featureflags.go:129-136 | replacing a snapshot by an equal one signals nothing |
| FeatureStore.NotificationExample | pkg/featureflags/featureflags.go:129-136 | from {A: Enabled, B: Disabled} to {A: Enabled, B: Enabled}, only B is signalled, and a subscriber of A alone hears nothing |
| FeatureStore.Store.constructor | pkg/featureflags/featureflags.go:105-108 | at start-up the current snapshot is the all-defaults snapshot and no one is subscribed |
| FeatureStore.Store.GetConfig | pkg/featureflags/featureflags.go:182-184 | the current snapshot covers exactly the registry |
| FeatureStore.Store.IsEnabled | pkg/featureflags/featureflags.go:196-199 | the flag reads as enabled exactly when the current snapshot holds "Enabled" for it; a flag outside the registry never does |
| FeatureStore.Store.IsDisabled | pkg/featureflags/featureflags.go:203-206 | the negation of the store's IsEnabled; a flag outside the registry always reads as disabled |
| FeatureStore.Store.Swap | pkg/featureflags/featureflags.go:130 | installs the new snapshot and returns the one it replaces |
| FeatureStore.Store.Signal | pkg/featureflags/featureflags.go:118-127 | appends one call per subscriber of the flag, in registration order, with the flag's old and new values, and nothing else |
| FeatureStore.Store.UpdateConfig | pkg/featureflags/featureflags.go:129-136 | afterwards the current snapshot is the new one; the flags signalled are exactly the changed ones, each once, and the calls made are those of signalling them in that order |
| FeatureStore.Store.UpdateConfigFromMap | pkg/featureflags/featureflags.go:160-163 | the current snapshot becomes the map pipeline's result, it still covers the registry, and the changed flags are signalled as in UpdateConfig |
| FeatureStore.Store.UpdateConfigFromEnvironment | pkg/featureflags/featureflags.go:149-152 | the current snapshot becomes the environment pipeline's result, it still covers the registry, and the changed flags are signalled as in UpdateConfig |
| FeatureStore.Store.Subscribe | pkg/featureflags/featureflags.go:209-218 | only the flag's own list changes: the subscriber is appended when absent, and lists stay duplicate-free |
| FeatureStore.ExampleScenario | pkg/featureflags/featureflags.go:160-163 | with the built-in registry, subscribing to EXAMPLE and then setting it to "Disabled" from a map makes it read as disabled, and the subscriber was called exactly once, with ("EXAMPLE", "Enabled", "Disabled") |

## Left out

- Concurrency: the mutex around the subscriber lists and the atomic value holding the current snapshot (pkg/featureflags/featureflags.go:77-86) are not modelled. The store is single-threaded. So the model says nothing about concurrent readers, racing swaps, or how notifications from overlapping updates interleave.
- The process environment: `os.Getenv` is replaced by an environment map passed to the pipeline. A variable absent from the map reads as the empty string.
- Subscriber equality: `Subscriber(id)` stands for Go interface equality on subscriber values, which `slices.Contains` uses to skip duplicates (pkg/featureflags/featureflags.go:214). So in Go two distinct subscriber values of a comparable type with equal fields count as one subscriber; in the model they are one and the same `Subscriber(id)`. The run-time panic of that comparison on a dynamic type that cannot be compared (one holding a slice, map or func) is not modelled.
- Subscriber handlers: a handler is code outside the package. Each call is recorded in the store's `delivered` log and is not run. A handler that panics, blocks, or subscribes while being called is not modelled.
- Visiting order: which changed flag is signalled first is not fixed, because Go leaves map iteration order unspecified. The model only states that each changed flag is signalled exactly once.
- Registry metadata: the `Since` and `Stage` fields are carried in `FeatureSpec` but nothing reads them.
- The type assertion on the stored value (`.(Config)`) cannot fail in the package and is not modelled.
- Logging (pkg/logger/logger.go, pkg/logger/sink.go) and the webhook process entry point (webhook-main.go) are not part of this model.
