# Fast type binding, socket argument conversion and DLR host settings

A Dafny model of three pieces of sequential logic from the IronPython and
IronRuby runtime, with proofs of what each promises.

- **FastTypeBinding** (`fast_type_binding.dfy`) models how IronPython binds a
  call that constructs an instance of a user-defined type. There are three parts:
  - the eligibility gates of `MakeInvokeBinding`;
  - the classification of the resolved `__new__` and `__init__` slots in
    `MakeBindingResult`;
  - the process-wide allocator cache of `GetOrCreateFastNew`, a class whose
    invariant makes the cache transparent.

  It also models the guard-and-execute protocol of `FastTypeSite.CallTarget`,
  as a trace of the steps a call takes. The generated arity variants 0..5 are
  identical, so one model takes the arguments as a sequence.
- **BasicSocket** (`basic_socket.dfy`) models the conversion layer under
  IronRuby's socket classes. It covers:
  - the `shutdown` range check and socket flags;
  - address-family names and values, over the `FamilyNames` table;
  - host strings from integers, bignums and names;
  - integer narrowing, port numbers and service lookup over the
    `ServiceNames` table.

  The byte loops are imperative and are proved against big-endian
  encode/decode functions.
- **SilverlightSettings** (`silverlight_settings.dfy`) models the DLR host
  script. It covers:
  - the right-biased `Object.merge`;
  - `DLR.parseSettings`, which extracts the truthy DLR keys into
    `initParams`;
  - the default settings;
  - the control counter and id rule of `DLR.createObject`, as a class.
- `wrappers.dfy` (Option, Result) and `decimal.dfy` (decimal printing of
  integers with its round trip, and ASCII upper-casing) support the three
  modules.

## Model

| member | source | states |
|---|---|---|
| FastTypeBinding.FastNewCache.MakeInvokeBinding | Merlin/Main/Languages/IronPython/IronPython/Runtime/Types/PythonType.Generated.cs:38-87 | a system type, a mixed old/new-style type, a resolvable `__del__`, more than 5 arguments or a metaclass each give the empty result and leave the cache alone; so does a site whose third `Invoke` parameter is not `object`; more than 5 generic arguments raise NotImplemented; otherwise the result is the built target (null when refused) with shouldCache true, and a build over the default allocator adds the allocator for (underlying type, site) to the cache when it was absent and can be made, leaving every other entry as it was |
| FastTypeBinding.GenericTypeArgs | Merlin/Main/Languages/IronPython/IronPython/Runtime/Types/PythonType.Generated.cs:54-57 | the generic argument list has one entry fewer than three for each `Invoke` parameter, and entry i is parameter i+3 |
| FastTypeBinding.SelectBuilder | Merlin/Main/Languages/IronPython/IronPython/Runtime/Types/PythonType.Generated.cs:59-84 | arity 0 uses the non-generic builder, 1..5 the generic builder of that arity, and any other arity raises NotImplemented |
| FastTypeBinding.NestedBinder | Merlin/Main/Languages/IronPython/IronPython/Runtime/Types/PythonType.Generated.cs:105-106 | the nested binder's signature is one leading simple argument followed by the original signature |
| FastTypeBinding.MakeBuilder | Merlin/Main/Languages/IronPython/IronPython/Runtime/Types/PythonType.Generated.cs:102-109 | the builder keeps the type, site type and generic arguments, and stores the nested binder |
| FastTypeBinding.PlanSlots | Merlin/Main/Languages/IronPython/IronPython/Runtime/Types/PythonType.Generated.cs:114-145 | refuses in each case: a default `__init__` with arguments and default `__new__`; an `__init__` that is neither default nor a Python function; a `__new__` that is neither default nor an exact staticmethod over a function. Every other accepted `__init__`/`__new__` pair builds. An unresolvable `__new__` behind an accepted `__init__` raises NullReference, exactly then. Each build is made of the delegates its slots call for, and every nested new/init site it plans targets a Python function |
| FastTypeBinding.FreshFastNew | Merlin/Main/Languages/IronPython/IronPython/Runtime/Types/PythonType.Generated.cs:163-188 | an allocator is built exactly when the type has one constructor taking exactly one `PythonType`, and it allocates that type for that site |
| FastTypeBinding.BuildTarget | Merlin/Main/Languages/IronPython/IronPython/Runtime/Types/PythonType.Generated.cs:111-148 | a classification error propagates; a refusal, or a default `__new__` without the canonical constructor, gives null; a build with a `__new__` site, or with the default `__new__` and the canonical constructor, gives a site; a built site captures the version read at the start, and holds exactly the new and init delegates the slots call for |
| FastTypeBinding.FastNewCache.GetOrCreateFastNew | Merlin/Main/Languages/IronPython/IronPython/Runtime/Types/PythonType.Generated.cs:153-192 | keeps the invariant that every cached allocator equals a fresh build; a hit returns the cached entry and changes nothing; a miss creates the inner map and inserts an entry only when an allocator is built |
| FastTypeBinding.FastNewCache.MakeBindingResult | Merlin/Main/Languages/IronPython/IronPython/Runtime/Types/PythonType.Generated.cs:111-148 | returns what the classification and the reflected constructors determine, whatever the cache holds; only the default-`__new__` path may change the cache, and only as `GetOrCreateFastNew` does |
| FastTypeBinding.NewInitCall | Merlin/Main/Languages/IronPython/IronPython/Runtime/Types/PythonType.Generated.cs:252-254 | the nested call's callee is the stored target, its first argument the type or instance, then the original arguments in order |
| FastTypeBinding.NestedCallMatchesNestedBinder | Merlin/Main/Languages/IronPython/IronPython/Runtime/Types/PythonType.Generated.cs:319-321 | the nested binder's signature and the nested call's arguments line up, one leading simple argument and then the originals |
| FastTypeBinding.CallTarget | Merlin/Main/Languages/IronPython/IronPython/Runtime/Types/PythonType.Generated.cs:295-307 | a guard miss (not a type, or another version) calls only `Update` and returns its result; a hit calls new first and returns its result; init runs exactly when it exists and new returned a non-null instance whose runtime type is the underlying type |
| FastTypeBinding.StaleSiteNeverRunsDelegates | Merlin/Main/Languages/IronPython/IronPython/Runtime/Types/PythonType.Generated.cs:228-240 | once the type's version differs from the captured one, the site runs no delegate and returns what `Update` returns |
| FastTypeBinding.NonTypeTakesSlowPath | Merlin/Main/Languages/IronPython/IronPython/Runtime/Types/PythonType.Generated.cs:229-239 | a value that is not a Python type always takes the `Update` path |
| FastTypeBinding.DefaultAllocatorAlwaysInitialises | Merlin/Main/Languages/IronPython/IronPython/Runtime/Types/PythonType.Generated.cs:231-234 | with the default `__new__` and a user `__init__`, a hit allocates the underlying type and then always runs `__init__` on that instance |
| FastTypeBinding.ForeignInstanceSkipsInit | Merlin/Main/Languages/IronPython/IronPython/Runtime/Types/PythonType.Generated.cs:232-234 | when new returns null or an object of another CLR type, only new is called |
| BasicSocket.Shutdown | Merlin/Main/Languages/Ruby/Libraries.LCA_RESTRICTED/socket/BasicSocket.cs:146-153 | raises ArgumentError exactly when how is below 0 or above 2; otherwise shuts down in mode how and returns 0 |
| BasicSocket.ConvertToSocketFlag | Merlin/Main/Languages/Ruby/Libraries.LCA_RESTRICTED/socket/BasicSocket.cs:424-429 | nil means no flags; anything else goes through the fixnum conversion |
| BasicSocket.FirstMatch | Merlin/Main/Languages/Ruby/Libraries.LCA_RESTRICTED/socket/BasicSocket.cs:566-591 | the index of the first table entry that matches, with no match before it, or none when no entry matches; every family and service lookup is this search with its own match |
| BasicSocket.ToAddressFamilyString | Merlin/Main/Languages/Ruby/Libraries.LCA_RESTRICTED/socket/BasicSocket.cs:453-460 | returns the name of the first table entry for the family, and raises AddressFamilyNotSupported when there is none |
| BasicSocket.ConvertToAddressFamily | Merlin/Main/Languages/Ruby/Libraries.LCA_RESTRICTED/socket/BasicSocket.cs:431-451 | nil gives AF_INET and a Fixnum is the value itself; anything else is converted with `to_str` and maps to the family of the first entry with that name, or goes through `to_int` when there is none |
| BasicSocket.FamilyNamesDistinct | Merlin/Main/Languages/Ruby/Libraries.LCA_RESTRICTED/socket/BasicSocket.cs:635-673 | no name appears twice in the family table |
| BasicSocket.FamilyNameRoundTrip | Merlin/Main/Languages/Ruby/Libraries.LCA_RESTRICTED/socket/BasicSocket.cs:431-460 | mapping a family to its table name and back gives the family again |
| BasicSocket.FirstFamilyEntryAt | Merlin/Main/Languages/Ruby/Libraries.LCA_RESTRICTED/socket/BasicSocket.cs:453-460 | a family entry with no earlier entry for the same value is the one the family lookup finds |
| BasicSocket.FirstMatchAt | Merlin/Main/Languages/Ruby/Libraries.LCA_RESTRICTED/socket/BasicSocket.cs:444-448 | an entry that matches, with no match before it, is the one the lookup finds |
| BasicSocket.SharedFamilyValuesUseFirstName | Merlin/Main/Languages/Ruby/Libraries.LCA_RESTRICTED/socket/BasicSocket.cs:639-649 | the value shared by NS and Ipx is named AF_IPX, and the value shared by Iso and Osi is named AF_ISO |
| BasicSocket.AddressFamilyToString | Merlin/Main/Languages/Ruby/Libraries.LCA_RESTRICTED/socket/BasicSocket.cs:404-422 | the seven explicit names come first; then `AF_` and the upper-cased enum name; otherwise `unknown:` and the decimal value |
| BasicSocket.ExplicitNamesAgreeWithTable | Merlin/Main/Languages/Ruby/Libraries.LCA_RESTRICTED/socket/BasicSocket.cs:404-422 | for INET, DLI, HYLINK and INET6 the explicit name equals the family table's name |
| BasicSocket.ToBigEndianRoundTrip | Merlin/Main/Languages/Ruby/Libraries.LCA_RESTRICTED/socket/BasicSocket.cs:463-471 | recombining the bytes of a split gives back every value that fits in the width |
| BasicSocket.BigEndianDecodeEncode | Merlin/Main/Languages/Ruby/Libraries.LCA_RESTRICTED/socket/BasicSocket.cs:466-469 | every byte string is the split of the number it denotes: the split is the only encoding of its width |
| BasicSocket.UInt32Split | Merlin/Main/Languages/Ruby/Libraries.LCA_RESTRICTED/socket/BasicSocket.cs:463-471 | bytes[3] is the lowest byte of the address, bytes[0] the highest, and the sum of bytes[i]·256^(3−i) is the address |
| BasicSocket.SplitBigEndian | Merlin/Main/Languages/Ruby/Libraries.LCA_RESTRICTED/socket/BasicSocket.cs:466-469 | the shift-and-mask loop fills the buffer with the big-endian split of the value |
| BasicSocket.NewIPAddress | Merlin/Main/Languages/Ruby/Libraries.LCA_RESTRICTED/socket/BasicSocket.cs:470-470 | an address is made from exactly 4 or 16 bytes; any other length raises an argument error |
| BasicSocket.ConvertUInt32ToHostString | Merlin/Main/Languages/Ruby/Libraries.LCA_RESTRICTED/socket/BasicSocket.cs:463-471 | the host string is the address made from the 4-byte big-endian split |
| BasicSocket.BignumHostStringAsWritten | Merlin/Main/Languages/Ruby/Libraries.LCA_RESTRICTED/socket/BasicSocket.cs:473-492 | as written, succeeds exactly for 0..UInt32.MaxValue with the 4 bytes that denote the value; other 64-bit unsigned values build 8 bytes, which the address constructor rejects; anything else raises RangeError `quad long` |
| BasicSocket.ConvertBignumToHostStringAsWritten | Merlin/Main/Languages/Ruby/Libraries.LCA_RESTRICTED/socket/BasicSocket.cs:473-492 | the conversion as written computes the result defined by BignumHostStringAsWritten |
| BasicSocket.BignumHostString | Merlin/Main/Languages/Ruby/Libraries.LCA_RESTRICTED/socket/BasicSocket.cs:473-492 | succeeds exactly for 0..2^64−1, and the result's bytes denote the value: 4 of them up to UInt32.MaxValue and 16 above; anything else raises RangeError `quad long` |
| BasicSocket.ConvertBignumToHostString | Merlin/Main/Languages/Ruby/Libraries.LCA_RESTRICTED/socket/BasicSocket.cs:473-492 | the corrected conversion computes the result defined by BignumHostString |
| BasicSocket.FirstIPv6ValueRejectedAsWritten | Merlin/Main/Languages/Ruby/Libraries.LCA_RESTRICTED/socket/BasicSocket.cs:481-487 | 2^32, a valid 64-bit address, is rejected by the written conversion and converted to a 16-byte IPv6 address by the corrected one |
| BasicSocket.ConvertNameToHostString | Merlin/Main/Languages/Ruby/Libraries.LCA_RESTRICTED/socket/BasicSocket.cs:494-505 | null raises HostNotFound, and only null fails; the empty name gives 0.0.0.0 and `<broadcast>` gives 255.255.255.255; any other name is returned unchanged |
| BasicSocket.NameNormalisationIdempotent | Merlin/Main/Languages/Ruby/Libraries.LCA_RESTRICTED/socket/BasicSocket.cs:494-505 | normalising an already normalised host name changes nothing |
| BasicSocket.ConvertToHostString | Merlin/Main/Languages/Ruby/Libraries.LCA_RESTRICTED/socket/BasicSocket.cs:507-518 | a Fixnum or Bignum takes the bignum conversion as written, so negative Fixnums raise RangeError and values above UInt32.MaxValue fail in the address constructor; nil raises HostNotFound; anything else converts with `to_str` and takes the name conversion |
| BasicSocket.ConvertToHostStringCorrected | Merlin/Main/Languages/Ruby/Libraries.LCA_RESTRICTED/socket/BasicSocket.cs:507-518 | the same dispatch over the corrected bignum conversion |
| BasicSocket.IntegerAsFixnum | Merlin/Main/Languages/Ruby/Libraries.LCA_RESTRICTED/socket/BasicSocket.cs:528-544 | an int gives (true, value); a bignum in int32 range gives (true, value); a bignum out of range raises RangeError; anything else gives (false, 0); a reported integer is never truncated |
| BasicSocket.SearchForServiceByPort | Merlin/Main/Languages/Ruby/Libraries.LCA_RESTRICTED/socket/BasicSocket.cs:566-573 | the scan returns the first entry for the port, or null |
| BasicSocket.SearchForServiceByName | Merlin/Main/Languages/Ruby/Libraries.LCA_RESTRICTED/socket/BasicSocket.cs:575-582 | the scan returns the first entry with the name, or null |
| BasicSocket.SearchForServiceByNameAndProtocol | Merlin/Main/Languages/Ruby/Libraries.LCA_RESTRICTED/socket/BasicSocket.cs:584-591 | the scan returns the first entry with the name and protocol, or null |
| BasicSocket.ConvertToPortNum | Merlin/Main/Languages/Ruby/Libraries.LCA_RESTRICTED/socket/BasicSocket.cs:546-564 | a Fixnum is returned as is and nil gives 0; otherwise the `to_str` result gives the port of the first service with that name, or goes through `to_int` |
| SilverlightSettings.Merge | Merlin/Main/Hosts/SilverLight/Scripts/mss.js:21-30 | the result's keys are the union of both inputs; a key of `src` has its `src` value and any other key its `dest` value; the inputs are values and cannot change |
| SilverlightSettings.JoinOptions | Merlin/Main/Hosts/SilverLight/Scripts/mss.js:48-52 | the comma-joined options are empty exactly when there are none |
| SilverlightSettings.JsSubstring | Merlin/Main/Hosts/SilverLight/Scripts/mss.js:52-52 | positions within the string select that slice; two non-positive positions give the empty string (section 21.1.3.19 of ECMAScript 2015) |
| SilverlightSettings.SubstringArgumentsCommute | Merlin/Main/Hosts/SilverLight/Scripts/mss.js:52-52 | swapping the two positions changes nothing |
| SilverlightSettings.TrailingIsJoinPlusComma | Merlin/Main/Hosts/SilverLight/Scripts/mss.js:48-51 | the loop's string is the comma-joined options followed by one comma |
| SilverlightSettings.InitParamsIsJoin | Merlin/Main/Hosts/SilverLight/Scripts/mss.js:48-52 | `initParams` is the options joined by commas with no trailing comma, and empty when there are none |
| SilverlightSettings.ExtractedOptions | Merlin/Main/Hosts/SilverLight/Scripts/mss.js:37-45 | an option is extracted exactly when its key is a DLR key and its merged value is truthy, and it carries that value |
| SilverlightSettings.StrippedStep | Merlin/Main/Hosts/SilverLight/Scripts/mss.js:41-44 | deleting a key whose value is truthy extends the deletions by that key, and a falsy key deletes nothing |
| SilverlightSettings.DlrKeysDistinct | Merlin/Main/Hosts/SilverLight/Scripts/mss.js:37-37 | the six DLR keys are pairwise distinct |
| SilverlightSettings.ExtractDlrOptions | Merlin/Main/Hosts/SilverLight/Scripts/mss.js:38-45 | the extraction loop leaves the merged settings without their truthy DLR keys, and collects exactly those keys in `dlr_keys` order |
| SilverlightSettings.TrailingText | Merlin/Main/Hosts/SilverLight/Scripts/mss.js:48-51 | the concatenation loop builds `key=value,` for each option in order |
| SilverlightSettings.ParseSettings | Merlin/Main/Hosts/SilverLight/Scripts/mss.js:32-56 | the settings returned are the defaults merged with the settings, less the truthy DLR keys, plus `initParams` |
| SilverlightSettings.ParsedSettingsContents | Merlin/Main/Hosts/SilverLight/Scripts/mss.js:32-56 | every non-DLR key keeps its merged value; a DLR key survives exactly when its merged value is falsy; `initParams` is always set to the comma-joined extracted options, whatever the inputs held under that name |
| SilverlightSettings.InitParamsEmptyIff | Merlin/Main/Hosts/SilverLight/Scripts/mss.js:37-53 | `initParams` is empty exactly when no DLR key has a truthy merged value |
| SilverlightSettings.DefaultSettings | Merlin/Main/Hosts/SilverLight/Scripts/mss.js:101-110 | the defaults have exactly six keys; source is path + `/dlr.xap` when the path is not null, else `dlr.xap`; id is `silverlightDlrObject_DOMOnly` |
| SilverlightSettings.OnlyReportErrors | Merlin/Main/Hosts/SilverLight/Scripts/mss.js:37-45 | when reportErrors is the only truthy DLR key, it is the only option extracted |
| SilverlightSettings.DefaultsParse | Merlin/Main/Hosts/SilverLight/Scripts/mss.js:112-115 | the defaults alone give initParams `reportErrors=errorLocation`, drop reportErrors and keep the default id |
| SilverlightSettings.WithObjectId | Merlin/Main/Hosts/SilverLight/Scripts/mss.js:93-95 | a control with the default id and a positive count is renamed `silverlightDLRObject` + count; every other key and case is unchanged |
| SilverlightSettings.GeneratedIdsDistinct | Merlin/Main/Hosts/SilverLight/Scripts/mss.js:93-95 | different counts give different generated ids |
| SilverlightSettings.GeneratedIdIsNotDefault | Merlin/Main/Hosts/SilverLight/Scripts/mss.js:82-95 | a generated id is never the default id |
| SilverlightSettings.DlrHost.constructor | Merlin/Main/Hosts/SilverLight/Scripts/mss.js:7-17 | loading makes a falsy autoAdd true and a falsy path null, starts the count at 0, and parses `DLR.settings` against the defaults |
| SilverlightSettings.DlrHost.CreateObject | Merlin/Main/Hosts/SilverLight/Scripts/mss.js:86-99 | each call adds exactly 1 to the count; it builds one control from the parsed settings with the id rule applied at the old count; nothing else changes |
| Decimal.NatToStringRoundTrip | Merlin/Main/Hosts/SilverLight/Scripts/mss.js:94-94 | the decimal text of a count reads back as the count |
| Decimal.IntToString | Merlin/Main/Languages/Ruby/Libraries.LCA_RESTRICTED/socket/BasicSocket.cs:420-420 | `Int32.ToString`: the decimal digits, with a leading minus sign for negative values |
| Decimal.AsciiUpper | Merlin/Main/Languages/Ruby/Libraries.LCA_RESTRICTED/socket/BasicSocket.cs:419-419 | upper-casing keeps the length and maps each ASCII lower-case letter to its capital |

## Left out

- Reflection and code generation are left out: `GetMethod("Invoke")`, `GetConstructors` (a parameter of the cache), `Activator.CreateInstance`, `MakeGenericType`, and compiling the allocator. The compiled allocator is the value `FastNew(type, site)`, and running it yields a fresh object of that type.
- The `lock` around `_fastBindCtors`: the cache is modelled sequentially.
- `TryResolveSlot`, `CallSite.Update`, the nested sites' dispatch and the way `Version` is bumped are inputs: a type snapshot and a `Runtime` of functions.
- The `CodeContext` and the typed generic delegates: the arity variants are one model over a sequence of arguments.
- All socket and DNS I/O, `CheckSecurity` safe-level checks in `shutdown`, and taint. `Shutdown` returns the mode it would pass to the socket.
- BasicSocket.Shutdown: takes `how` as an already converted Int32; the default `how = 2` and the `to_int` conversion of the argument are not modelled.
- `IPAddress.ToString` formatting: a host string carries the address bytes instead of their text.
- `Protocols.CastToString`/`CastToFixnum` and `Enum.GetName` are opaque function parameters.
- `String.ToUpper` is modelled as ASCII upper-casing, which covers the enum member names.
- BasicSocket.SearchForServiceByPort, SearchForServiceByName, SearchForServiceByNameAndProtocol: they take the table as a parameter. `ConvertToPortNum` always passes `ServiceNames`. No lemma is proved about particular entries of the 143-entry service table.
- The mss.js DOM and Silverlight work is left out: `__startup`, the XAML script scan, `Silverlight.buildHTML`, `innerHTML`, event listeners and the `window.DLR` creation. A created control is represented by the settings it is built from.
- The `if(!DLR.__loaded)` guard is not modelled: the script is loaded once.
- JavaScript numbers are integers: no fractions, NaN or infinities. Objects are maps of own properties. Prototype properties and the `for-in` order of objects are not modelled. The order of `dlr_options` is modelled, since it is insertion order.

## Findings

| source | as written | input that shows it | evidently intended | confidence | as-written member | corrected member |
|---|---|---|---|---|---|---|
| Merlin/Main/Languages/Ruby/Libraries.LCA_RESTRICTED/socket/BasicSocket.cs:481-487 | the IPv6 branch splits the 64-bit value into an 8-byte buffer and passes it to `new IPAddress(bytes)`, which accepts only 4 or 16 bytes | host 4294967296 (2^32): the constructor raises an argument error instead of producing an address | a 16-byte IPv6 address whose bytes denote the value | not executed | BasicSocket.FirstIPv6ValueRejectedAsWritten | BasicSocket.ConvertBignumToHostString |
