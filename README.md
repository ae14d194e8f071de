# cloudinventory in Dafny

A model of the core of cloudinventory, a command-line tool that dumps the
inventory of an AWS account (EC2 instances, RDS databases, load balancers,
CloudFront distributions, VPCs, subnets, Route 53 hosted zones) and of Azure
subscriptions (virtual machines, SQL databases, virtual networks) as JSON,
and optionally writes an Ansible inventory of the EC2 instances.

What is modelled, one Dafny module per file:

- `Fanout` (fanout.dfy): the collection rule of every per-region or
  per-subscription collector. With a ceiling `maxGoRoutines`, the first
  batch of scopes is fetched concurrently and merged only after all of them
  finish. Each later scope is then fetched and merged on its own, in range
  order. A `nil` result leaves its scope out. A failure discards everything.
  Go's map range order is a parameter `order`, and every contract holds for
  each such order. A ghost trace of fetches and writes states the schedule.
- `Paging` (paging.dfy): the meaning of a paginated listing. The replies to
  the successive calls form a script, and each reply is read as retry,
  fatal error, another page or the last page. `Slice` is Go's distinction
  between a `nil` slice and an empty one.
- `Ec2`, `Rds`, `LoadBalancer`, `HostedZone`, `CloudFront`: the
  per-service paginated readers of awslib/.
- `AwsCollect` (collector/awscollect.go), `Collect` (collector/collect.go),
  `AzureCollect` (azurecollector/azurecollect.go) and `VnetCollect`
  (azurevnetcollector/vnetcollect.go): the collector objects, their
  constructors and their collection methods.
- `Ansible` (ansible/ansible.go): the Ansible inventory text.
- `AzureVms` (azurelib/vms.go): reading an Azure resource ID, the optional
  properties of a virtual machine, and the record `getVMDetails` fills.
- `Dispatch`, `AwsCmd`, `AzureCmd` (cmd/aws.go, cmd/azure.go): filter
  validation, which collections each filter asks for, and the keys of the
  JSON object.
- `Strings`, `Wrappers`: the pieces of Go's `strings`/`strconv` and the
  `Option`/`Result` types used for nil pointers and `(value, error)` pairs.

## Behaviour of the code worth noting

- A ceiling of 0 means "no concurrent batch at all", not "unbounded". Only
  a negative ceiling, or one at least the number of sessions, is unbounded.
- Only a `nil` result is dropped. An empty but non-`nil` slice is stored,
  with count 0.
- A failing batch returns `nil` maps. Nothing merged earlier survives.
- `GetAllDBInstances` discards what it gathered on an error.
- The Route 53 readers stop on `IsTruncated`, not on an empty cursor.
- cmd/aws.go calls the collector methods with the signatures of
  collector/collect.go and the constructors of collector/awscollect.go.
  Each module here models its own file's signatures.

## Model

| member | source | states |
|---|---|---|
| Fanout.BatchSize | collector/awscollect.go:128-132 | the batch is all sessions exactly when the ceiling is negative or at least their number; it is empty exactly when there are no sessions or the ceiling is 0; otherwise it is the ceiling |
| Fanout.CollectBatched | collector/awscollect.go:115-189 | the result holds exactly the scopes whose fetch returned a non-nil slice, with those slices; counts have the same keys and the slice lengths; any failure aborts with empty counts; a batch failure is reported as "Failed to gather <kind> Data: Error while gathering <scope>: <err>" for some failing batch scope, after only the batch's fetches; otherwise the first failing tail scope is reported without its name, and nothing after it is fetched; batch results are written only after every batch fetch |
| Fanout.CollectAll | collector/collect.go:56-99 | every scope is fetched first; the result is gathered iff no fetch failed, it maps exactly the scopes with non-nil slices, and writes come only after all fetches; otherwise it reports one failing scope by name |
| Fanout.UnboundedIsFullBatch | collector/awscollect.go:128-129 | with a negative ceiling, or one at least the number of sessions, the batched collector behaves as the unbounded one |
| Fanout.ZeroCeilingIsSequential | collector/awscollect.go:140-185 | with a ceiling of 0 each scope is fetched and merged before the next one is fetched, and a failure is reported without its scope's name |
| Fanout.FetchedPrefix | collector/awscollect.go:139-186 | the fetchers that ran are a prefix of the range order: the whole batch if it failed, otherwise every scope up to and including the first failing one |
| Fanout.GatheredScopes | collector/awscollect.go:151-154 | a scope is in the result iff it is a session whose fetcher returned a non-nil slice, and it maps to that slice |
| Fanout.FirstFailed | collector/awscollect.go:173-176 | the index of the first failing scope in order; every earlier scope did not fail; it equals the length iff none failed |
| Fanout.CloseBatch | collector/awscollect.go:158-171 | at the end of the batch a queued error ends the collection, reported as the batch failure, after only the batch's fetches; with no error the drained results hold exactly the batch's non-nil slices, with their lengths |
| Fanout.GatherOne | collector/awscollect.go:172-183 | a scope after the batch that fails ends the collection with its error and nothing after it fetched; a nil slice leaves both maps as they are; a slice is stored with its length |
| Fanout.Drain | collector/awscollect.go:167-170 | draining the batch channel writes every result and its length, each scope once |
| Fanout.BatchErrorsSound | collector/awscollect.go:146-148 | every error on the error channel names a failing batch scope and its error; the channel is empty iff no batch fetch failed |
| Paging.Append | awslib/ec2.go:21 | Go `append`: the elements are concatenated, and the result is nil only when the slice was nil and nothing was appended |
| Paging.FirstStop | awslib/ec2.go:14-28 | the first reply at which a listing loop stops; every earlier reply did not stop it |
| Paging.RetryRepeatsRequest | awslib/loadbalancer.go:45-51 | a retried reply adds nothing, and the next request is the same request again |
| Paging.MoreThreadsCursor | awslib/ec2.go:27 | after a page that has more, the next request carries that page's cursor |
| Paging.FirstRequest | awslib/ec2.go:13 | the first request carries no cursor |
| Paging.CollectedGrows | awslib/ec2.go:20-22 | what is gathered only grows from call to call |
| Ec2.InstancesStep | awslib/ec2.go:16-27 | an error is fatal; a page has more exactly when it carries a next token |
| Ec2.AppendReservations | awslib/ec2.go:20-22 | appending reservation after reservation gives the slice followed by all their instances in order, and a nil slice stays nil only when there are none |
| Ec2.GetAllInstances | awslib/ec2.go:9-30 | every instance of every page before the stop, in order, nil when there are none; a failing call returns what was gathered with its error; the nth request carries the token of the page before it |
| Rds.DBInstancesStep | awslib/rds.go:16-26 | an error is fatal; a page has more exactly when it carries a marker |
| Rds.GetAllDBInstances | awslib/rds.go:10-29 | every database of every page, in order; any error discards everything and returns nil with "Error Describing Instances" |
| LoadBalancer.LoadBalancersStep | awslib/loadbalancer.go:44-64 | a RateExceeded error is retried, any other error is fatal, and a page has more exactly when it carries a next marker |
| LoadBalancer.GetAllLoadBalancers | awslib/loadbalancer.go:27-110 | `GetAllCLB` and `GetAllALBAndNLB`: every load balancer gathered before the loop stopped, in order, nil when there are none; a non-throttling error is returned together with what was gathered before it |
| HostedZone.ZonesStep | awslib/hostedzone.go:28-40 | every error is retried; only a page whose IsTruncated is present and true has more |
| Paging.AppendEach | awslib/hostedzone.go:32-34 | appending a page's zones one at a time gives the zones so far followed by the page's, in order, and the result is nil only when the slice was nil and the page empty |
| HostedZone.GetAllHostedZones | awslib/hostedzone.go:11-43 | every zone of every page, in order, in a non-nil slice, and never an error |
| CloudFront.DistributionsStep | awslib/cloudfront.go:31-50 | a RateExceeded error is retried and any other is fatal; each page adds its list; a truncated page has more, and the next request's marker is the page's NextMarker |
| CloudFront.DistributionsStepAsWritten | awslib/cloudfront.go:31-50 | as DistributionsStep, but the next request's marker is the page's Marker |
| CloudFront.GetAllCloudFrontDistributions | awslib/cloudfront.go:14-54 | every page's list, in order; a non-throttling error comes back with what was gathered before it; each request carries the NextMarker of the last page |
| CloudFront.GetAllCloudFrontDistributionsAsWritten | awslib/cloudfront.go:14-54 | the same loop with each request's marker taken from the reply's Marker |
| CloudFront.AsWrittenNeverAdvances | awslib/cloudfront.go:50 | against a service that echoes the request's marker, every request the loop as written sends has no marker |
| CloudFront.AsWrittenNeverStops | awslib/cloudfront.go:50 | against a service with two pages, the loop as written never reaches a reply that stops it |
| CloudFront.NextMarkerReadsBothPages | awslib/cloudfront.go:50 | with NextMarker the same service is read in two calls, both pages in order |
| AwsCollect.WordsDistinct | collector/awscollect.go:164 | two collectors' error texts share their word exactly when they are the same collector or both are load-balancer collectors |
| AwsCollect.GetRegions | collector/awscollect.go:75-86 | the lower-cased partition "china" selects the China regions, "default" all regions, and any other name nil |
| AwsCollect.GetRegionsIgnoresCase | collector/awscollect.go:77 | only the letter case of the partition name is ignored |
| AwsCollect.GetRegionsExamples | collector/awscollect.go:77-83 | "China" and "DEFAULT" select their partitions and "non-existent" none |
| AwsCollect.PerSession | collector/awscollect.go:144-155 | a per-session call is read as failed exactly when it errs, and as nil exactly when it returns nil without error |
| AwsCollect.RecordSetsStep | collector/awscollect.go:261-273 | every error is retried; only a truncated page has more, and its next request keeps the zone and moves all three start fields to the page's next fields |
| AwsCollect.RecordSetsKeepZone | collector/awscollect.go:255-273 | every request of a record-set listing asks for the zone it was given |
| AwsCollect.AWSCollector.InitSessions | collector/awscollect.go:88-101 | a build failure is wrapped as "Unable to build AWS Sessions: <err>" and leaves the sessions unchanged; otherwise the sessions are replaced |
| AwsCollect.AWSCollector.CheckCredentials | collector/awscollect.go:104-111 | true exactly when no session's credentials have expired |
| AwsCollect.AWSCollector.Collect | collector/awscollect.go:115-739 | each of the seven Collect methods follows the batched rule, with its resource's word in the error text |
| AwsCollect.AWSCollector.CollectZones | collector/awscollect.go:192-232 | every zone of every page, in order, in a non-nil slice, with its count and no error |
| AwsCollect.AWSCollector.GetHostedZoneRecords | collector/awscollect.go:235-278 | every record set of every page, in order, with its count and no error; each request asks for the given zone |
| AwsCollect.NewAWSCollector | collector/awscollect.go:35-50 | an unknown partition gives "Invalid Region Selected" with no sessions; otherwise the sessions are built and the error is nil exactly when no credentials have expired, else "Error obtaining AWS Credentials" |
| AwsCollect.NewAWSCollectorUserDefined | collector/awscollect.go:54-68 | a nil region list gives "Invalid Region Selected"; otherwise the same stages as NewAWSCollector |
| AwsCollect.Create | collector/awscollect.go:41-49 | the session build, then the credential check, each with its own error |
| Collect.AWSCollector.InitSessions | collector/collect.go:32-39 | a build failure gives the bare "Unable to build AWS Sessions" and leaves the sessions unchanged |
| Collect.AWSCollector.CheckCredentials | collector/collect.go:42-53 | true exactly when every session's credentials can be read and have not expired |
| Collect.AWSCollector.CollectUnbounded | collector/collect.go:56-146 | CollectEC2 and CollectRDS: every region fetched at once; gathered iff none failed, with exactly the non-nil slices |
| Collect.NewAWSCollector | collector/collect.go:14-25 | a build failure gives "Unable to build AWS Sessions" and no sessions; otherwise the built sessions, and an error exactly when the credential check fails, reading "Error obtaining AWS Credentials." |
| AzureCollect.AzureCollector.InitSubscription | azurecollector/azurecollect.go:15-25 | a listing error is returned as it is and leaves the map unchanged; otherwise the map is replaced |
| AzureCollect.AzureCollector.CollectSQLDBs | azurecollector/azurecollect.go:27-67 | gathered iff no subscription failed; the result's keys are subscription names, and each maps to its non-nil database list; a failure reads "Failed to gather SQL databases Data: ..." |
| VnetCollect.SubscriptionNameInjective | azurevnetcollector/vnetcollect.go:35-36 | two user-given subscriptions get the same key only when they have the same index and the same ID |
| VnetCollect.NameIsNew | azurevnetcollector/vnetcollect.go:34-37 | the key built at step i is not among the keys of earlier steps |
| VnetCollect.NamesStep | azurevnetcollector/vnetcollect.go:34-37 | each step adds exactly one key, the new index's name mapped to its ID, and keeps every earlier entry |
| VnetCollect.NewAzureCollectorUserDefined | azurevnetcollector/vnetcollect.go:31-40 | the map has one key "SubscriptionID <i> : <id>" per given ID, mapping to that ID, and no other keys; it has as many entries as IDs were given; the error is nil |
| VnetCollect.AzureCollector.GetSubscription | azurevnetcollector/vnetcollect.go:43-53 | a listing error is returned and leaves the map unchanged; otherwise the map is replaced |
| VnetCollect.AzureCollector.CollectVirtualNetworks | azurevnetcollector/vnetcollect.go:56-90 | gathered iff no subscription failed, with each subscription's non-nil network list; a failure reads "Failed to gather load balancers Data: ..." |
| VnetCollect.NewAzureCollector | azurevnetcollector/vnetcollect.go:19-28 | the subscriptions as listed, or the listing's error |
| Ansible.TagName | ansible/ansible.go:81-95 | a name exists iff some "Name" tag has a non-empty value; the name has no spaces; otherwise the error is "Invalid or Empty Name Tag" |
| Ansible.TagNameIsFirst | ansible/ansible.go:83-91 | the name is the first non-empty "Name" tag's value with its spaces removed |
| Ansible.ExtractNamefromEC2Tags | ansible/ansible.go:81-95 | the tag loop returns the name TagName describes, or "" and the error |
| Ansible.BlankNameIsEmpty | ansible/ansible.go:86-90 | a value made only of spaces passes the emptiness test and gives the empty name |
| Ansible.Entries | ansible/ansible.go:46-65 | a region's entries all have a non-empty host and a name without spaces, at most one per instance |
| Ansible.EntriesAppend | ansible/ansible.go:46-65 | instances are filtered one by one, keeping their order |
| Ansible.EntryOfInstance | ansible/ansible.go:47-64 | an instance gives an entry exactly when it has a usable name and a non-empty host, chosen by the private flag |
| Ansible.RegionEntries | ansible/ansible.go:46-64 | the loop over one region's instances gives exactly the region's filtered entries, in instance order |
| Ansible.Dump | ansible/ansible.go:43-68 | every region of the EC2 dump gets an entry list, even an empty one |
| Ansible.Render | ansible/ansible.go:34-42 | the inventory always ends in "\n\t" and, when there is a region, opens with the first region's "\n\n[<region>]" header; in between each region's header is followed by one "\n<name> ansible_ssh_host=<host>" line per entry, region after region in key order |
| Ansible.SectionsOpenWithFirst | ansible/ansible.go:35-37 | the rendered sections open with the first region's header |
| Ansible.RenderEmpty | ansible/ansible.go:34-42 | with no regions the inventory is "\n\t" |
| Ansible.RenderExample | ansible/ansible.go:34-42 | two regions render as their headers and lines, in key order |
| Ansible.SectionInRender | ansible/ansible.go:35-41 | every region's header and lines appear in the inventory, even when it has no line |
| Ansible.RenderSorted | ansible/ansible.go:35 | the inventory depends only on the map, not on the order it was built in |
| Ansible.SortedKeys | ansible/ansible.go:35 | the map's keys, strictly ascending |
| Ansible.BuildEC2Inventory | ansible/ansible.go:32-79 | the inventory is the rendering of the filtered dump in ascending region order, and the error is nil |
| AzureVms.GetVMSubscription | azurelib/vms.go:161-171 | segment 2 of the ID, which has no "/"; "" and "No subscription" without an ID |
| AzureVms.GetVMResourcegroup | azurelib/vms.go:135-145 | segment 4 of the ID; "" and "No resourceGroup" without an ID |
| AzureVms.GetVMname | azurelib/vms.go:148-158 | segment 8 of the ID; "" and "No vm name" without an ID |
| AzureVms.VMIDRoundTrip | azurelib/vms.go:135-171 | for an ID built from a subscription, a resource group and a name, the three accessors return exactly those |
| AzureVms.GetVMTags | azurelib/vms.go:174-183 | the tags when present, else an empty map and "no tags present for the vm" |
| AzureVms.GetVMLocation | azurelib/vms.go:186-195 | the location when present, else "" and "no location assigned to the vm" |
| AzureVms.GetVMadminusername | azurelib/vms.go:213-221 | the admin user name when present, else "" and "Vm has no admin user name" |
| AzureVms.GetVmnetworkinterface | azurelib/vms.go:224-236 | segment 8 of the first interface's ID; "Vm has no network interface" when the list is nil |
| AzureVms.FirstNicOnly | azurelib/vms.go:226-229 | only the first interface counts: its name is returned whatever follows it |
| AzureVms.GetPrivateIP | azurelib/vms.go:239-254 | the lookup's error with empty results, or the first configuration's name and private address ("" when unset) |
| AzureVms.GetPublicIPAddressID | azurelib/vms.go:257-275 | segment 8 of the first configuration's public IP ID, "Vm has no publicIPname" without one, or the lookup's error |
| AzureVms.NetworkAndSubnet | azurelib/vms.go:306-307 | segment 8, "/", segment 10 of a subnet ID |
| AzureVms.NetworkAndSubnetRoundTrip | azurelib/vms.go:305-307 | a subnet ID built from a network and a subnet reads back as "<network>/<subnet>" |
| AzureVms.NetworkAndSubnetInjective | azurelib/vms.go:307 | different network and subnet pairs never read the same |
| AzureVms.GetSubnetandvirtualnetwork | azurelib/vms.go:296-312 | "<network>/<subnet>" of the first configuration's subnet, "Vm has no virtual network and subnet" without one, or the lookup's error |
| AzureVms.GetPublicIPAddress | azurelib/vms.go:278-293 | the public IP's address when set, "Vm has no publicIPAddress" otherwise, or the lookup's error |
| AzureVms.GetDNS | azurelib/vms.go:315-328 | the public IP's DNS name when set, "DNS is not configured" otherwise, or the lookup's error |
| AzureVms.GetVMDetailsAsWritten | azurelib/vms.go:58-91 | only VM is set when the resource group or interface name cannot be read; otherwise each field is set exactly when its lookup succeeds, the public address only with the public IP name, and the DNS name is looked up under the interface's name |
| AzureVms.DnsAsWrittenMissesName | azurelib/vms.go:78 | for an interface whose own public IP has a DNS name, the lookup as written records none |
| AzureVms.DnsIsAttachedAddress | azurelib/vms.go:78-89 | the corrected DNS name is recorded exactly when the interface refers to a public IP whose DNS name is set, and it is that name |
| AzureVms.GetVMDetails | azurelib/vms.go:58-91 | as GetVMDetailsAsWritten, with the DNS name looked up under the public IP's name; a DNS name or public address is only ever set together with the public IP name |
| Dispatch.Asked | cmd/aws.go:107-115 | the collections asked for are a prefix of the plan; every one but the last succeeded; the whole plan is asked for and succeeds iff all succeed; otherwise the last one asked for failed |
| Dispatch.FirstError | cmd/aws.go:108-114 | the error the command stops on is that of the last collection it asked for |
| AwsCmd.ValidateAWSFilter | cmd/aws.go:141-158 | true exactly when the filter is one of the accepted names |
| AwsCmd.ValidFiltersExactly | cmd/aws.go:142-151 | the accepted filters are exactly "ec2", "cloudfront", "vpc", "subnet", "rds", "hostedzone", "loadbalancer" and "" |
| AwsCmd.FilterIsCaseSensitive | cmd/aws.go:153 | "EC2", "ec2 " and "loadbalancers" are rejected |
| AwsCmd.Output.Collect | cmd/aws.go:160-224 | a collection's result is stored under its key, with "cdn" for CloudFront and "hostedzones" for hosted zones; a failure stores nothing |
| AwsCmd.Output.CollectLoadBalancers | cmd/aws.go:226-247 | the classic and then the application and network load balancers are stored as a two-element list under "loadbalancer"; a classic failure asks for nothing more and nothing is stored |
| AwsCmd.Output.CollectDefault | cmd/aws.go:107-115 | EC2 is stored under "ec2", then RDS under "rds" only when EC2 succeeded; the error is the first failure, and after a failure only what succeeded before it is stored |
| AwsCmd.Output.CollectFiltered | cmd/aws.go:71-116 | on an empty result, the filter's collections are asked for in order until one fails, and a run without error holds exactly the expected keys |
| AwsCmd.Run | cmd/aws.go:36-125 | an invalid filter or a collector error writes nothing; otherwise the filter's collections are asked for in order until one fails, and the object is written iff all succeed, with exactly the expected keys |
| AwsCmd.RenamedKeys | cmd/aws.go:178 | "cloudfront" results are stored under "cdn" and "hostedzone" results under "hostedzones" |
| AwsCmd.OwnNameKeys | cmd/aws.go:167-201 | every other single-service filter stores its result under its own name |
| AwsCmd.DefaultRun | cmd/aws.go:107-115 | the empty filter stores "ec2" and "rds"; an EC2 failure ends the run before RDS is asked for |
| AwsCmd.ClassicFailureSkipsTheRest | cmd/aws.go:229-233 | a classic load balancer failure means the application and network load balancers are never asked for |
| AwsCmd.RegionsFromFile | cmd/aws.go:52-53 | the regions have no spaces, and joining them with spaces gives the file back |
| AwsCmd.TrailingNewlineKept | cmd/aws.go:53 | a line break ending the file stays in the last region |
| AwsCmd.DoubleSpaceGivesEmptyRegion | cmd/aws.go:53 | two spaces in a row give an empty region name |
| AzureCmd.ValidateAzureFilter | cmd/azure.go:65-77 | true exactly when the filter is one of the accepted names |
| AzureCmd.ValidFiltersExactly | cmd/azure.go:66-72 | exactly "vm", "sqldb" and "" are accepted; "VM", "vms" and " vm" are not |
| AzureCmd.Output.Collect | cmd/azure.go:79-99 | the machines are stored under "vm" and the databases under "sqldb"; a failure stores nothing |
| AzureCmd.Output.CollectFiltered | cmd/azure.go:31-51 | "vm" asks for the machines, "sqldb" for the databases, anything else for both in that order, stopping at the first failure; a run without error holds exactly the expected keys |
| AzureCmd.Run | cmd/azure.go:14-60 | an invalid filter or a collector error writes nothing; otherwise the filter's collections are asked for in order until one fails, and the object is written iff all succeed |
| AzureCmd.ExpectedKeys | cmd/azure.go:42-50 | each filter stores under its own name; the default stores both and stops as soon as the machines fail |
| Strings.SplitJoin | azurelib/vms.go:138 | splitting the join of pieces without "/" gives the pieces back |
| Strings.JoinSplit | cmd/aws.go:53 | joining the pieces of a split gives the string back |
| Strings.RemoveAll | ansible/ansible.go:90 | no space is left, and the result is no longer than the input |
| Strings.RemoveAllAbsent | ansible/ansible.go:90 | a name without spaces is kept as it is |
| Strings.AtoiItoa | azurevnetcollector/vnetcollect.go:35 | the decimal string of an index reads back as that index |
| Strings.ItoaInjective | azurevnetcollector/vnetcollect.go:35 | different indices give different decimal strings |
| Strings.SortedUnique | ansible/ansible.go:35 | two strictly ascending listings of the same keys are equal |

## Left out

- Goroutines, WaitGroups and channels are replaced by what they compute. All batch outcomes are known before the batch is checked. Channel arrival order, which decides the reported batch error and the write order, is a nondeterministic choice.
- Go's map range visits each key once. The model only assumes `order` covers exactly the session keys, and the batch size is taken over `|order|`.
- The backoff sleeps (`jpillora/backoff`, `time.Sleep`) are left out. A retry is just another call, and a listing's replies are a finite script that ends with a reply that stops it. A service that keeps throttling forever is not modelled, except in `CloudFront.AsWrittenNeverStops`.
- Building SDK sessions, clients and authorizers, reading environment variables and region lists from the SDK's endpoints are parameters: a `build` function, the region slices, an `expired` predicate, the Azure lookups.
- AwsCollect.AWSCollector.CollectZones: which session the Route 53 client uses (the last one in range order) is not modelled; the replies are a parameter.
- AwsCollect.AWSCollector.GetHostedZoneRecords: the same; the session is not modelled.
- Strings.ToLower folds ASCII letters only, which is all the partition names need; Unicode case folding is not modelled.
- SDK error values are strings or `ApiError` codes, taken as opaque text.
- Fanout.CollectBatched: the message is exact only for error texts without '%'. collector/awscollect.go:147,164,175 (and the same lines of the other six collectors) pass the formatted text to `fmt.Errorf` as a format string, so Go rewrites any '%' verb in it, once for the scope's error and again for the batch error. Go's format-verb rewriting is not modelled.
- Fanout.CollectAll: exact for collector/collect.go:76,92, which use `errors.New`; for the two Azure collectors below the message is exact only for texts without '%'.
- AwsCollect.AWSCollector.Collect: the message is exact only for error texts without '%', as for Fanout.CollectBatched.
- AzureCollect.AzureCollector.CollectSQLDBs: the message is exact only for error texts without '%'; azurecollector/azurecollect.go:44,58 re-read it as a format string with `fmt.Errorf`.
- VnetCollect.AzureCollector.CollectVirtualNetworks: the message is exact only for error texts without '%'; azurevnetcollector/vnetcollect.go:71,84 re-read it as a format string with `fmt.Errorf`.
- JSON marshalling, file reads and writes, `fmt` printing and cobra flag wiring are left out. `AwsCmd.Run` returns the object it would write. The CloudFront failure message printed in cmd/aws.go says "RDS"; printing is not modelled.
- The region file's contents are a parameter of `AwsCmd.RegionsFromFile`. A file that cannot be read is one of the errors under `created`.
- The Ansible template's parse and execute errors cannot happen for the fixed template and are not modelled. `Ansible.BuildEC2Inventory` always returns a nil error.
- Out-of-range indexing that would panic is a precondition: an ID with too few segments, an interface without IP configurations.
- Some nil pointers the code dereferences cannot be represented at all, so their panics are not modelled: a tag's `Key` is a plain string (`Ansible.Tag`), and `AzureVms.VirtualMachine` has no `OsProfile`.
- AzureVms.GetDNS: a DNS settings block without an `Fqdn` panics in the code. The model folds it into "DNS is not configured".
- `GetVMSize` and `GetVMOsType` read fields without any logic and are not modelled.
- `GetallVMS` (azurelib/vms.go), `GetAllSQLDBs` (azurelib/dbs.go), `ExtractVMInventory` (azurelib/azureVM.go) and azurelib/azurePostgres.go are concurrent fan-outs whose channel capacities and shared slices are not part of this model.
- The Azure SDK listing iterators (azurenetwork/vnet.go, azurelib/loadbalancer.go, azurelib/cdn.go, azurelib/base.go) and awslib/subnet.go wrap a single SDK call each and are left out.
- The Ansible export at the end of the `dump aws` command (cmd/aws.go:127-137) is not modelled beyond `Ansible.BuildEC2Inventory`; it reads the "ec2" entry whatever the filter was.
- cmd/azure.go builds its collector from an Azure collector package of another repository (`NewAzureCollector`, `CollectVMS`); that package is not part of this model, and `AzureCmd.Run` takes its outcomes as parameters.
- The test files that need live cloud credentials are not modelled.

## Findings

| source | as written | input that shows it | evidently intended | confidence | as-written member | corrected member |
|---|---|---|---|---|---|---|
| awslib/cloudfront.go:50 | the next request's marker is the reply's `DistributionList.Marker`, which echoes the marker the request sent | a service with a truncated first page, whose NextMarker is "2" and whose Marker echoes the request: every request asks for the first page again, and the loop never ends | take the next marker from `NextMarker`, so both pages are read in two calls | not executed; high | CloudFront.AsWrittenNeverStops | CloudFront.NextMarkerReadsBothPages |
| azurelib/vms.go:78 | `GetDNS` gets the network interface's name where it expects a public IP's name | interface "vm1-nic" whose first configuration refers to public IP "vm1-ip", which has DNS name "vm1.example.net", and no public IP named "vm1-nic": no DNS name is recorded | look the DNS name up under the public IP name that `GetPublicIPAddressID` returns | not executed; likely | AzureVms.DnsAsWrittenMissesName | AzureVms.DnsIsAttachedAddress |
