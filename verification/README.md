# Verification model of the proxy and its relay

A Dafny model of the four stateful cores of the program, with proofs about every run, every
input and every way bytes can arrive. `dafny verify dfyconfig.toml` checks all of it.

**Relay rendezvous** (`RelayTables`, `Rendezvous`, `RendezvousInv`, `Pairing`, `Crosstalk`,
`HandOff`, `RendezvousTheorems`, `History`, `Witnesses`, `Crossing`, `RelayRun`). Phones register control connections; SOCKS5 clients park in
`wait` under a fresh number and a phone is told to open a data connection for them; a `data:`
connection claims the waiter and sends itself through a capacity-1 channel, racing a timeout.
Class `Relay` performs each mutex section in place and is proved against a function on `Tables`;
`RelayRun` replays any run on one such object, whose answers decide the handlers' next steps.
`Rendezvous` puts these functions into a transition system with one program counter for each
connection, where a mutex section, a write, a send, a receive and the timeout decision are
separate steps and any handler may take the next. Writes may fail part-way at any step. A run is
a list of events; the theorems hold after every run.

**Control channel** (`Text`, `Control`, `PhoneTunnel`, `Streams`). The lines between relay and
phone as bytes: decimal ids, line splitting, trimming, the cut at the first colon, and the
buffered reader that reads ahead over any segmentation.

**SOCKS5** (`Socks5`, `Parsers`, `Pipe`). One grammar for the greeting and CONNECT request of
RFC 1928, with an encoder proved inverse to it in both directions, and the three parsers of the
program as imperative code refining it: the relay's over the buffered reader, the proxy's in one
reused array of 257 bytes, the tunnel's with fresh slices after its first read. `Pipe` continues
after the handshake and proves that forwarding starts at exactly the right byte.

**Byte relays and buffers** (`TwoWay`, `Pool`, `PoolLedger`, `Counting`), **admission and UDP
sessions** (`Admission`, `UdpSessions`, `UdpTheorems`, `SessionTable`, and `TunnelCounts` for the
counters that TCP and UDP share), and the **HTTP host scan and connection log** (`HttpHost`,
`ConnLog`). Concurrent parts are again transition systems over atomic steps; objects the program
changes in place are classes, and `Admission.Replay` and `SessionTable.Replay` carry out any run
on them.

A connection is named by a number, and a channel by the handler that made it. A peer's input is a
list of nonempty segments, and a peer takes `room` more bytes before writes fail. Deadlines on the
relay appear as reads and writes that fail; time is modelled only where a claim is about time.

Assumptions of a theorem are stated on the last state of a run and are proved to have held all
along (`RendezvousTheorems.AssumptionsHeldAllAlong`): `HostsClean`, no requested host holds a newline;
`KeysApart`, no `connect:` id equals an issued client number; `PhonesHonest`, a `data:` connection
under an issued number was opened by a phone that read an order for it. Runs that satisfy all three
and serve any target a client may ask for are shown to exist (`Witnesses.AnyTargetIsServed`), and
each assumption is needed: see the claims below for clean hosts and keys apart; without honest
phones a client may be handed a connection that no phone opened for an order
(`DishonestPhoneCrosses`).

Four tempting claims are false of the code, and the model says exactly when they hold:

- A client can be handed a connection that was ordered for another target, though phones are
  honest: the relay accepts newlines in a domain name, and one cuts the control line short
  (`NewlineCrosses`). For any set of hosts that clients may ask for, every client is handed only
  connections ordered for its own number and target, on every run with honest phones, exactly
  when no domain name in the set holds a newline (`NeverCrossesExactly`). A newline can also hide
  an order to open a connection to any other target for another client (`BaitCrosses`).
- A waiting client's hand-off can be lost (`LegacyCanOverwrite` reaches such a state). A step
  loses it exactly when it is a `connect:` client parking on that client's entry
  (`HandOffLostExactly`), and a run has lost it exactly when one of its steps was
  (`HandOffOverRun`).
- The active count can exceed the connection limit, and by any amount, because a handler returns
  its token before it leaves the count. It keeps to a bound on every run exactly when the limit is
  zero (`ActiveBoundedExactly`).
- The program's own README (line 34) says that UDP sessions expire after 3 minutes of
  inactivity. The code ends a session when its upstream has been silent for the 2-minute read
  deadline, whatever the client sends (`LeavesExactly`), so how long a session was idle when it
  ends can be anything from no time at all to the latest its reader's timing allows
  (`IdleAtEndExactly`). Read as "only sessions idle for 3 minutes are ended" the claim is true on
  no timing; read as "no session is idle for longer" it is true exactly when rearming the deadline
  and acting on it are together at most a minute late (`ExpiryAsDocumented`), which is also
  exactly when the 3-minute sweep never has anything to remove (`SweepIsIdleExactly`). The model
  follows the code.

The tunnel's parser differs from the other two: it wants at least one method, the whole greeting
in its first read and nothing after it, and it checks the version of the request
(`TunnelAgreesExactly`).

## Model

| member | source | states |
|---|---|---|
| Text.DecDenotes | cmd/relay/main.go:97 | a printed number is nonempty, all digits, and denotes the number |
| Text.DecExactly | cmd/relay/main.go:97 | the printed text is the one numeral without leading zeros that denotes the number |
| Text.TrimSpaceExactly | internal/tunnel/relay.go:53 | trimming takes off exactly the white space at both ends, character by character |
| Text.JoinHostPortShape | cmd/relay/main.go:211 | a target ends in a digit and has a newline exactly when the host has, bracketed or not |
| Text.TargetReadsBack | cmd/relay/main.go:211 | a target reads back: the numeral behind its last colon is the port, and before it stands the host, in brackets exactly when it has a colon |
| Text.ReadsAsOne | cmd/relay/main.go:211 | a target reads as one host and one port only |
| Text.IndexOf | internal/tunnel/relay.go:75 | the position is the first occurrence, and the length exactly when there is none |
| Text.LinesOfCons | internal/tunnel/relay.go:67 | a line in front of a stream is its first line and leaves the others as they are |
| Text.LinesOfPrefix | internal/tunnel/relay.go:67-71 | the lines of what has arrived are the first lines of the whole stream |
| Control.ClientIdInjective | cmd/relay/main.go:224-225 | two client ids are equal only if their numbers are |
| Control.PhoneIdInjective | cmd/relay/main.go:96-97 | two phone ids are equal only if their numbers are |
| Control.MessageRoundTrip | internal/tunnel/relay.go:72-82 | each control message is one line, which trims and parses to the order it means and is an `id:` answer only if it identifies |
| Control.WireLines | cmd/relay/main.go:230-243 | splitting the concatenated bytes at newlines recovers the message boundaries, with an unfinished write adding none |
| Control.FramingRoundTrip | internal/tunnel/relay.go:47-83 | for every list of messages the phone's session carries out exactly the orders meant, in order, however many colons targets hold |
| Control.ParseOrderExactly | internal/tunnel/relay.go:74-81 | a line is an order exactly when it is `conn`, or `conn:`, an id without a colon, a colon and a target; every other line is passed over |
| Control.SessionRefusedExactly | internal/tunnel/relay.go:48-58 | a phone gives up exactly when the answer does not begin with `id:` or never ends |
| Control.SessionIsItsLines | internal/tunnel/relay.go:65-83 | an order is carried out exactly when a line after the `id:` answer gives it |
| Control.ControlTexts | cmd/relay/main.go:101-230 | the control lines and the phone's first line, as literal texts |
| Control.OrderComesFromMessage | internal/tunnel/relay.go:65-82 | after any prefix of the stream, an order at line i means the i-th message, and line 0 identified |
| Control.FirstLineRoundTrip | cmd/relay/main.go:85-145 | the lines that phones and legacy clients send are dispatched as what they are, with the id intact |
| Control.TrimEolExactly | cmd/relay/main.go:89 | exactly the returns and newlines at the end of a first line are taken off |
| Control.DispatchExactly | cmd/relay/main.go:91-164 | a first line registers a phone exactly when it is `register`, and names an id for a client or a data connection exactly behind `connect:` and `data:` |
| Control.IssuedIdRoundTrip | internal/tunnel/relay.go:100 | every id the relay issues comes back unchanged in a `data:` line |
| RelayTables.Relay.constructor | cmd/relay/main.go:18-28 | the tables start empty |
| RelayTables.Relay.RegisterPhone | cmd/relay/main.go:95-100 | the next phone number is issued, registered and made the last phone, and nothing else changes |
| RelayTables.Relay.UnregisterPhone | cmd/relay/main.go:110-115 | the id leaves the table, `lastPhone` is cleared if it was this id and stays what it was otherwise, and nothing else changes |
| RelayTables.Relay.FindPhone | cmd/relay/main.go:232-234 | the connection registered under the id, if any |
| RelayTables.Relay.ParkClient | cmd/relay/main.go:223-228 | a fresh client number is drawn and the client waits under it |
| RelayTables.Relay.ParkLegacy | cmd/relay/main.go:125-128 | the client waits under the id it named, whatever was there before |
| RelayTables.Relay.Claim | cmd/relay/main.go:149-154 | the waiter is found and removed in one section |
| RelayTables.Relay.RemoveWaiter | cmd/relay/main.go:262-264 | the entry under the id is gone and no other |
| RendezvousInv.HandlersStep | cmd/relay/main.go:71-267 | every step keeps, at each program counter, the handler's role, history and replies in order |
| RendezvousInv.RegistryStep | cmd/relay/main.go:95-115 | every step keeps: keys of `ctrl` are exactly the connected phones' ids, ids are never reused, `lastPhone` is the latest id while that phone is registered and empty otherwise |
| RendezvousInv.FreshPhoneId | cmd/relay/main.go:96-98 | the next phone id was never given to any phone and is not in `ctrl` |
| RendezvousInv.FindsTheSame | cmd/relay/main.go:214-234 | a lookup by a remembered id can only find the connection seen under it |
| RendezvousInv.MemoryStep | cmd/relay/main.go:214-243 | every step keeps what handlers remember of phones true, though phones come and go |
| Pairing.WaitInjective | cmd/relay/main.go:226-227 | a channel sits in `wait` under one key only |
| Pairing.PairingStep | cmd/relay/main.go:125-157 | every step keeps: numbers drawn once, a parked channel unsent and under its maker's key, a claimed one out of `wait` and claimed once, a sent one sent once under its maker's key |
| RendezvousTheorems.AssumptionsHeldAllAlong | cmd/relay/main.go:71-164 | each of the three assumptions, if true at the end of a run, was true after each of its prefixes |
| Crosstalk.StreamsStep | cmd/relay/main.go:230-243 | every step keeps: each message on a control stream says what its author asked for, and a half-written one ends no line |
| Crosstalk.EmitExtends | cmd/relay/main.go:243 | a control write adds to the stream exactly the bytes accepted, and after a failure nothing is added |
| Crosstalk.OrderedIsTold | internal/tunnel/relay.go:65-82 | an order parsed from the bytes a phone has read was written at that very line |
| Crosstalk.OrderIsDispatched | internal/tunnel/relay.go:90-102 | the first line sent for an order reaches the relay's `data:` case with the order's id |
| Crosstalk.OriginsStep | internal/tunnel/relay.go:74-81 | every step keeps: a data connection opened for a line carries the id that line told |
| HandOff.OnePlace | cmd/relay/main.go:149-157 | a channel is in `wait`, claimed, or filled, never two of them, and has one claimer |
| HandOff.HandOffStep | cmd/relay/main.go:125-157 | a step keeps a waiting client in hand if and only if it was and no legacy client parks on its entry |
| RendezvousTheorems.InvStep | cmd/relay/main.go:71-267 | one step of any handler keeps the whole invariant |
| RendezvousTheorems.InvAlways | cmd/relay/main.go:71-267 | the invariant holds after every run |
| Crosstalk.OrdersStandStep | internal/tunnel/relay.go:65-102 | whatever the hosts, every step keeps: the order a data connection was opened for stands at its line of the phone's stream, and the connection's first line was the one for that order |
| RendezvousTheorems.OrdersStandAlways | internal/tunnel/relay.go:65-102 | the same after every run |
| RendezvousTheorems.OwnOrderExactly | cmd/relay/main.go:223-258 | with clean hosts, on every run the connection a client received was opened for an order naming its own number and a target that reads as its host and port, which its own handler wrote, if and only if it was opened for an order at all |
| RendezvousTheorems.NoCrosstalk | cmd/relay/main.go:223-258 | with honest phones and clean hosts, on every run a client receives only a data connection that a phone opened for an order naming the client's own number and a target that reads as its host and port, read at the `conn:cid:target` line its own handler wrote |
| RendezvousTheorems.ReceivedUnderOwnId | cmd/relay/main.go:144-157 | what a client received named the number issued to that client |
| RendezvousTheorems.TheLineIsItsOwn | cmd/relay/main.go:224-243 | a line telling a client's number was written by that client's handler, with its target |
| RendezvousTheorems.ExactlyOnce | cmd/relay/main.go:144-157 | on every run a channel carries at most one connection, a connection goes through at most one channel, and a sender never finds its channel full |
| RendezvousTheorems.NoLostHandOff | cmd/relay/main.go:223-266 | with keys apart, a waiting client is parked, or claimed by exactly one handler, or has its connection in the channel, and just one of these |
| RendezvousTheorems.HandOffLostExactly | cmd/relay/main.go:125-128 | in any reachable state a step loses a waiting client's hand-off if and only if it overwrites its entry |
| RendezvousTheorems.HandOffOverRun | cmd/relay/main.go:117-157 | over whole runs: a client that waits at the end is in hand if and only if no step of the run was a legacy client taking its entry |
| RendezvousTheorems.NoLeak | cmd/relay/main.go:235-266 | past its wait, on every exit path, a client's channel is nowhere in `wait` |
| RendezvousTheorems.WaitIsBounded | cmd/relay/main.go:223-266 | `wait` is never larger than the waiting SOCKS5 handlers plus the legacy clients |
| RendezvousTheorems.RegistryHolds | cmd/relay/main.go:95-115 | on every run `lastPhone` is the latest id exactly as long as that phone is registered and empty otherwise, every phone between registering and leaving is registered, and no id ever names two connections |
| RendezvousTheorems.LastPhoneStands | cmd/relay/main.go:95-115 | on every run a step changes `lastPhone` only by registering a phone or by taking off the latest one: no other phone's departure does |
| RendezvousTheorems.SamePhone | cmd/relay/main.go:214-243 | the connection a handler writes its line to is the one that was last phone when it chose |
| RendezvousTheorems.ReplyDiscipline | cmd/relay/main.go:185-266 | whatever writes fail, the bytes sent before piping are a prefix of a method reply and one 10-byte reply |
| RendezvousTheorems.ReplyTellsFate | cmd/relay/main.go:217-265 | success is offered exactly after a connection was received, code 3 exactly after a written line timed out, code 1 otherwise; piping follows success; a closed client was answered |
| RendezvousTheorems.NeverStuck | cmd/relay/main.go:71-267 | in every reachable state every open handler has an enabled step of its own |
| RendezvousTheorems.StepsBounded | cmd/relay/main.go:71-267 | on every run a handler takes at most 12 steps, and the steps taken and left never exceed that |
| RendezvousTheorems.CanFinish | cmd/relay/main.go:71-267 | from every state of every run any open handler reaches its end by its own steps alone, in no more than it has left |
| History.OpeningDecides | cmd/relay/main.go:75-164 | on every run a connection is served at all later times as its first bytes say: byte 5 a SOCKS5 client, `register` a phone, `connect:` with an id a legacy client, `data:` a data connection, and anything else no further |
| History.RequestDecides | cmd/relay/main.go:188-212 | on every run a refused command is answered 7, an address that cannot be read 8, an unfinished request not at all, and a CONNECT request makes a client for exactly its host and port |
| History.HandedWhatItAskedFor | cmd/relay/main.go:188-258 | from request to order: with honest phones and clean hosts, a client that sent a request is only ever handed a connection opened for an order with its number and a target that reads as the requested host and port |
| History.RulingExactly | cmd/relay/main.go:214-265 | a client's reply code is exactly what the run brought upon it: 1 when there was no last phone, it had left, or the line did not go out whole; 0 when a connection came; 3 when the wait timed out |
| History.LineIsWritten | cmd/relay/main.go:230-254 | on every run a client that waits or has waited had its control line written whole to a phone |
| History.LegacyIsTold | cmd/relay/main.go:130-135 | on every run a legacy client that names a registered phone has `conn` written to it before it waits, unless that connection takes no more |
| Witnesses.AnyTargetIsServed | cmd/relay/main.go:71-267 | whatever host without newline and port a client asks for, a run that keeps all three assumptions serves it, with the phone reading the order off its own stream |
| Crossing.NewlineCrosses | cmd/relay/main.go:278-288 | for every domain name with a newline and every port a run with an honest phone and no other client exists in which the client that asks for it is handed a connection ordered for another target |
| Crossing.NeverCrossesExactly | cmd/relay/main.go:223-288 | for every set of permitted hosts: on every run with honest phones each client receives only connections ordered for its own number and target, if and only if no permitted domain name of at most 255 bytes holds a newline |
| Crossing.BaitCrosses | cmd/relay/main.go:211-243 | for every target that fits on a line and in a domain name, a client can hide an order for it, under the next client's number, and that client is handed the connection, whatever other target it asked for |
| Witnesses.DishonestPhoneCrosses | cmd/relay/main.go:144-157 | a data connection opened without an order is handed to the client whose number it names |
| Witnesses.LegacyCanOverwrite | cmd/relay/main.go:117-128 | a run exists in which a waiting client is in hand nowhere |
| Witnesses.LegacyIsServed | cmd/relay/main.go:117-142 | a run exists in which a legacy client is served by the phone it named, which was told `conn` and came under its own id |
| Witnesses.LegacyLeavesEntry | cmd/relay/main.go:137-142 | for any id a run exists in which a legacy client has timed out and its entry is still in `wait` |
| RelayRun.Perform | cmd/relay/main.go:93-266 | a mutex section carried out on the table object leaves the tables of the transition system, and its answer takes the handler where the transition system does |
| RelayRun.Replay | cmd/relay/main.go:18-267 | on every run one table object, used section by section, holds the tables of the transition system |
| Streams.Conn.Read | cmd/relay/main.go:105 | a read returns the front of what is pending, within one segment, and fails exactly at the end |
| Streams.Conn.Write | cmd/relay/main.go:243 | a write delivers all its bytes or the part that fits, and says which |
| Streams.ReadFull | internal/proxy/socks5.go:210 | the buffer's front is exactly the next n bytes and they are consumed, or the stream held fewer |
| Streams.BufReader.Peek | cmd/relay/main.go:74-78 | the first byte is seen and nothing of the stream is lost |
| Streams.BufReader.Read | cmd/relay/main.go:317-334 | what is returned and what is still to come make up the stream, read-ahead included |
| Streams.BufReader.ReadFull | cmd/relay/main.go:170-192 | exactly the next n bytes, for every segmentation and read-ahead |
| Streams.BufReader.ReadSlice | cmd/relay/main.go:85 | a part up to the delimiter, or one whole buffer without it, or all that is left without it |
| Streams.BufReader.ReadUntil | cmd/relay/main.go:85-88 | the stream is cut after its first delimiter, or wholly taken when there is none |
| PhoneTunnel.ControlLoop | internal/tunnel/relay.go:65-83 | the orders carried out are those of the stream's lines, whatever the segments |
| PhoneTunnel.Register | internal/tunnel/relay.go:42-83 | a phone's session is the one the bytes of the control stream determine, or none when registering fails |
| PhoneTunnel.ServeMessages | internal/tunnel/relay.go:42-83 | fed the relay's messages in any segments, the phone carries out exactly their meanings |
| Socks5.AddressDecodesExactly | cmd/relay/main.go:269-307 | address and port decode to a request if and only if the bytes are its encoding followed by the rest |
| Socks5.RoundTrip | cmd/relay/main.go:170-210 | for all methods, addresses of length 0 to 255 and ports, decoding the encoding gives the request back and leaves the suffix |
| Socks5.DecodesExactly | cmd/relay/main.go:170-210 | a stream decodes to a request if and only if, up to unchecked version and reserved bytes, it is an encoding of it |
| Socks5.NameOnTheWire | cmd/relay/main.go:170-210 | a domain request in the literal bytes of RFC 1928 decodes to type 3, the name and the big-endian port, and leaves the rest |
| Socks5.NumberOnTheWire | cmd/relay/main.go:170-210 | so do IPv4 and IPv6 requests, types 1 and 4 |
| Socks5.OutcomeExactly | cmd/relay/main.go:170-210 | each way a handshake can end, if and only if the bytes are such: lengths, the command 1, the address types 1, 3 and 4 |
| Socks5.RepliesExactly | cmd/relay/main.go:185-208 | the literal bytes answered to each way a handshake ends |
| Parsers.ReadAddr | cmd/relay/main.go:269-298 | with an address, it and what is left are the address part of the grammar; without one, the grammar has no request here |
| Parsers.ReadPort | cmd/relay/main.go:300-307 | two bytes are consumed and are the big-endian port, or fewer were left |
| Parsers.RelayHandshake | cmd/relay/main.go:167-210 | the outcome, the bytes left and the replies written are the grammar's, for every segmentation |
| Parsers.ProxyAddr | internal/proxy/socks5.go:247-273 | the host copied out of the reused buffer is the grammar's address, though the length byte was overwritten |
| Parsers.ProxyHandshake | internal/proxy/socks5.go:209-279 | the parser that overwrites one 257-byte array has the grammar's outcome, rest and replies, and gives up exactly when the method reply does not go out |
| Parsers.TunnelFields | internal/tunnel/tunnel.go:264-299 | the fresh-slice parser takes the grammar's address and port and leaves its rest |
| Parsers.TunnelHandshake | internal/tunnel/tunnel.go:239-299 | after a first read the outcome, rest and replies are those of the tunnel's own reading of the grammar |
| Parsers.TunnelAccept | internal/tunnel/tunnel.go:213-227 | the first read is the front of the stream, a byte other than 5 is not SOCKS5, and the handshake starts after the read |
| Parsers.TunnelAgreesExactly | internal/tunnel/tunnel.go:239-262 | the tunnel gets the same request and rest as the others if and only if its first read is the greeting alone, with a method, and the request states version 5 |
| Parsers.RelayRefuses | cmd/relay/main.go:196-210 | a command other than 1 is answered 5,7,0,1,0,0,0,0,0,0 and an address that cannot be read 5,8,0,1,0,0,0,0,0,0, for every segmentation |
| Parsers.ProxyRefuses | internal/proxy/socks5.go:238-277 | a command other than 1 is answered the same, and an address that cannot be read by nothing after the method reply |
| Parsers.TunnelRefuses | internal/tunnel/tunnel.go:259-298 | a version other than 5 or a command other than 1 is answered the same, and an address that cannot be read by nothing after the method reply |
| Pipe.Copy | cmd/relay/main.go:317-334 | the destination gets exactly the stream, read-ahead first, as far as it takes it, and the count is what it got |
| Pipe.Forward | cmd/relay/main.go:320-326 | the same, then the write side is shut |
| Pipe.AcceptSocks | cmd/relay/main.go:74-83 | a first byte of 5 leads to the handshake and any other is left unread, with nothing written |
| Pipe.GrantAndForward | cmd/relay/main.go:255-258 | the client is sent the grant and the rest of its stream is forwarded |
| Pipe.ServeClient | cmd/relay/main.go:74-258 | of an encoded handshake and a payload, in any segments, exactly the payload is forwarded, and the client is sent exactly the method reply and the grant |
| Pipe.CopyBuffer | internal/pool/pool.go:135 | the destination gets exactly the pending bytes as far as it takes them, through one reused buffer |
| Pipe.RelayLoop | internal/pool/pool.go:131-137 | the count returned is what was delivered, the destination is shut, and one buffer went out and came back |
| TwoWay.ActKeeps | internal/pool/pool.go:131-145 | each read, write or shut keeps a loop's output a prefix of its input, at most one buffer behind |
| TwoWay.InvStep | internal/pool/pool.go:126-149 | any step of any loop or counter keeps every relay in order and the counters equal to the sums |
| TwoWay.CopyIsFaithful | internal/pool/pool.go:126-149 | on every interleaving a loop sends a prefix of what it read, at most 262144 bytes behind, shuts once at the end, ends without error exactly when its source ended cleanly and it sent all, and returns what it sent |
| TwoWay.CutShortExactly | internal/pool/pool.go:135-143 | on every run a loop at or past its shut has not sent its whole source if and only if the run has a write of that loop of which not all bytes were taken |
| TwoWay.FullBufferInFlight | internal/pool/pool.go:133 | a run exists in which a loop is a whole 262144-byte buffer behind |
| TwoWay.CountersAreDeliveries | internal/tunnel/tunnel.go:392-396 | on every run the byte counters are the sums of the delivered lengths of the relays added |
| TwoWay.LoopNeverStuck | internal/pool/pool.go:131-145 | a loop that is not done always has a step |
| Pool.BufferPool.constructor | internal/pool/pool.go:34-66 | after warming, every pooled buffer is new and exactly its tier's size, each tier has one to 128, and as many were allocated as there are |
| Pool.TiersExactly | internal/pool/pool.go:11-89 | the tiers are 4096, 65536 and 262144 bytes, and a buffer belongs to the largest it fills, or to none |
| Pool.BufferPool.Get | internal/pool/pool.go:68-99 | a buffer of the full tier length that was pooled or is new, and is pooled no more; one reuse is counted |
| Pool.BufferPool.Put | internal/pool/pool.go:73-89 | a buffer is filed in the largest tier it fits and counted, dropped when too small, ignored when nil |
| Pool.BufferPool.PutIn | internal/pool/pool.go:101-115 | a buffer of any length is filed in the named tier and counted, nil is ignored, and the tiers keep their sizes if and only if the buffer has its tier's |
| PoolLedger.BuffersStep | internal/pool/pool.go:34-115 | any step, evictions included, keeps each buffer on one shelf or with one holder, at its tier's size |
| PoolLedger.BuffersAreOwned | internal/pool/pool.go:34-115 | on every run no two users share a buffer, no held one can be handed out, and each has its tier's length |
| PoolLedger.Conservation | internal/pool/pool.go:18-115 | over all pools, reused = put back + dropped + outstanding, and nothing is dropped |
| PoolLedger.ConservationAtRest | internal/pool/pool.go:68-115 | with no get or put half done, outstanding is what is held |
| PoolLedger.NothingIsLost | internal/pool/pool.go:34-115 | on every run every buffer ever made is in a pool or with a user unless it was evicted |
| Admission.Server.TryAcquire | internal/proxy/socks5.go:162-168 | a token is taken exactly when one is free, and never waited for |
| Admission.Server.EnterActive | internal/proxy/socks5.go:170 | an admitted connection is added to the active count only |
| Admission.Server.AddTotal | internal/proxy/socks5.go:171 | then to the total only |
| Admission.Server.CountRejected | internal/proxy/socks5.go:165 | a refused connection is added to the rejected count only |
| Admission.Server.GiveBack | internal/proxy/socks5.go:202 | a handler's end gives one token back |
| Admission.Server.LeaveActive | internal/proxy/socks5.go:204 | and then leaves the active count |
| Admission.LawStep | internal/proxy/socks5.go:151-205 | each atomic step of accept loop or handler keeps the admission law |
| Admission.AdmissionLaw | internal/proxy/socks5.go:151-205 | on every run of the proxy tokens are the handlers between acquire and release and within capacity, accepted = rejected + total + at most one in flight, and active - tokens = released - not yet entered |
| Admission.TokensReachExactly | internal/proxy/socks5.go:162-163 | the numbers of tokens that runs reach are exactly those up to the capacity |
| Admission.RefusedExactly | internal/proxy/socks5.go:162-168 | on every run a connection is refused exactly when as many handlers serve as the capacity allows |
| Admission.ReleaseNeverBlocks | internal/proxy/socks5.go:202 | a handler giving its token back never waits on an empty semaphore |
| Admission.QuietServer | internal/proxy/socks5.go:201-205 | when all handlers have ended and the loop is back at accept, no token is out and the active count is zero |
| Admission.PileUp | internal/proxy/socks5.go:201-205 | with any positive capacity and for any number, a run ends with that active count, no token out and the loop at accept |
| Admission.ActiveBoundedExactly | internal/proxy/socks5.go:201-205 | the active count keeps to a bound, the capacity or any other, on every run if and only if the capacity is zero |
| Admission.Perform | internal/proxy/socks5.go:151-205 | a step carried out on the server object changes its gauges as the transition system does, and the semaphore's answer takes the accept loop where the transition system does |
| Admission.Replay | internal/proxy/socks5.go:151-205 | on every run one server object holds the gauges of the transition system |
| TunnelCounts.InvStep | internal/tunnel/tunnel.go:165-538 | every step of the accept loop, a TCP handler, the UDP dispatcher, a reader or the sweeper keeps each shared counter the sum of its TCP and its UDP part |
| TunnelCounts.TotalsLaw | internal/tunnel/tunnel.go:165-198 | on every run and any timing: accepted = rejected + TCPAccepts + one in the loop's hands, ConnsTotal = handlers started + sessions built but for one of each between two steps, and tokens are the serving handlers, within capacity |
| TunnelCounts.ActiveLawExactly | internal/tunnel/tunnel.go:165-538 | ConnsActive = tokens + released - not yet entered + UDP table + removed but not counted out + one the dispatcher has counted in, on every run if and only if UDP readers are together at most a minute late |
| UdpSessions.SoundStep | internal/tunnel/tunnel.go:421-538 | on any timing every step keeps: each table entry is a live reader's, the dispatcher's key is free, ConnsTotal counts each session once, and a read that failed without a network error was past its deadline or closed by the sweeper |
| UdpSessions.NoVictims | internal/tunnel/tunnel.go:433-442 | when readers are together at most a minute late the sweep selects nothing |
| UdpSessions.InvStep | internal/tunnel/tunnel.go:421-538 | when readers are together at most a minute late, every step also keeps: each live reader is in the table, none was swept, each is counted out once, and the share of the active count is the table's size |
| UdpTheorems.SilentSinceArmed | internal/tunnel/tunnel.go:523-533 | on every run a reader that waits or has just failed has taken no packet since it set its deadline |
| UdpTheorems.LeavesExactly | internal/tunnel/tunnel.go:523-533 | on every run and any timing a session leaves the table exactly by a sweep that finds it idle or a reader deleting its key, and such a reader, if it met no network error and was not swept, has taken no packet from its upstream in the last 2 minutes of the run; if prompt, it deletes its own entry |
| UdpTheorems.IdleAtEndExactly | internal/tunnel/tunnel.go:475-537 | without network errors a session can be deleted a given time after its last activity if and only if that is between zero and rearming + 2 minutes + lateness |
| UdpTheorems.ExpiryAsDocumented | internal/tunnel/tunnel.go:436 | on no timing are only sessions idle for 3 minutes ended: one whose client has just sent may be; none is idle for longer if and only if rearming plus lateness is at most a minute |
| UdpTheorems.SweepIsIdleExactly | internal/tunnel/tunnel.go:436 | the sweep never changes anything on any run if and only if rearming plus lateness is at most a minute |
| UdpTheorems.TableLawExactly | internal/tunnel/tunnel.go:468-538 | entries and live readers are one to one on every run, each session is counted out exactly once on every run, the UDP share is the table size but for sessions between two steps on every run: each if and only if rearming plus lateness is at most a minute |
| UdpTheorems.CountedTwice | internal/tunnel/tunnel.go:433-531 | on any later timing a run exists in which the sweeper and then the reader count the same session out, and the share is -1 |
| SessionTable.Table.Visit | internal/tunnel/tunnel.go:436-440 | an entry is closed, removed and counted out exactly when idle over three minutes |
| SessionTable.Table.Sweep | internal/tunnel/tunnel.go:433-442 | one tick removes, closes and counts out exactly the idle entries, in whatever order they are visited |
| SessionTable.SweepAll | internal/tunnel/tunnel.go:433-442 | a tick over the session objects is the sweep of the transition system, closed connections included |
| SessionTable.Perform | internal/tunnel/tunnel.go:468-537 | any step carried out on the table and the session objects is that step of the transition system |
| SessionTable.Replay | internal/tunnel/tunnel.go:421-538 | on every run the objects, the table and the counters stand for those of the transition system |
| HttpHost.SplitJoin | internal/tunnel/tunnel.go:556 | splitting a request at line breaks recovers the lines it was made of |
| HttpHost.JoinSplit | internal/tunnel/tunnel.go:556 | any data is its lines joined again |
| HttpHost.IsHostExactly | internal/tunnel/tunnel.go:558 | a line is a Host line exactly when it is longer than 6 and begins with h, o, s, t, each small or capital, a colon and a blank |
| HttpHost.ExtractHTTPHost | internal/tunnel/tunnel.go:554-567 | the result is the value of the first Host line in any case with a value, and empty when there is none |
| HttpHost.HostOfRequest | internal/tunnel/tunnel.go:554-567 | for every request made of lines, the host is that of the first Host line, and empty if and only if no line is one |
| HttpHost.ConnectTargetExactly | internal/tunnel/tunnel.go:540-552 | a nonempty target is extracted if and only if it stands between the first two spaces |
| ConnLog.Log.Append | internal/proxy/socks5.go:130 | appending adds one entry at the end, in place or in a new array |
| ConnLog.Log.AddConnLog | internal/proxy/socks5.go:127-134 | after each addition the log is exactly the newest entries of the whole history, in order |
| ConnLog.Log.GetConnLogs | internal/proxy/socks5.go:119-125 | a snapshot is an array of its own holding the newest entries |
| ConnLog.SnapshotsStand | internal/proxy/socks5.go:119-134 | later additions leave an earlier snapshot as it was, and the log holds the newest of all |

## Left out

- Sockets, dialing, TCP options, signals, listeners and shutdown: a connection is its bytes in, its bytes out and its failures.
- The dashboard, the SSH tunnel, address enumeration and the wiring of the daemon: no protocol state.
- Throughput figures in the statistics: wall clock and floating point, written under a read lock.
- Widths of counters and ids: all are unbounded integers, so wrap-around after 2^31 or 2^63 steps is not modelled.
- How the library prints numeric addresses, name resolution and the parsing of dial addresses: a numeric host is its address bytes in the codec and an arbitrary text without a newline in the rendezvous.
- `strings.TrimSpace` on the white space outside ASCII: the lines the relay writes have none at either end.
- Writes that fail by a deadline and later succeed: a connection whose write has failed takes nothing more.
- The texts `ready`, `pong` and `relay` written to connections: they carry no state, and `ready` is sent even when nobody waits.
- Success replies of the proxy and the tunnel, their dial-failure reply, and the `ConnsFailed` counter: they depend on the dialed socket.
- HTTP proxying beyond host extraction, the protocol choice on the first bytes other than 5, and raw forwarding: no property across steps.
- `RendezvousTheorems.NoCrosstalk`: claims hand-over only; the data connection is closed by its own handler right after, and the phone drops bytes it has buffered after `ready`, so there is no end-to-end claim through the phone.
- The rendezvous handlers run on values in one transition system; class `Relay` covers the in-place tables, and a channel is named by its maker rather than passed as an object.
- `Pipe.Forward`: one direction at a time; the two directions side by side are modelled for the pooled relay, in `TwoWay`.
- `Pipe.CopyBuffer`: models the copy through the buffer; the library may bypass it between two TCP sockets.
- `SessionTable.Table.Sweep`: is one atomic step, as it is under the lock; the write of `lastActivity`, which is not under it, is taken to be atomic.
- `SessionTable.Perform`: datagrams themselves and the byte and packet counters they add to are not modelled.
- `TwoWay.CountersAreDeliveries`: TCP relays only; UDP packets also add to the tunnel's byte counters.
- Panics and the recovery from them: no modelled step panics.
