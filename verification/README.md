# Tune: the remote-listening relay and its scripts, modelled in Dafny

Tune servers reach listeners through a relay, `tune-bridge`. This project models
the parts of the relay and of four scripts where a guarantee spans many calls,
and proves those guarantees for every input and every run:

* the table of remote-listening sessions: challenges, openings, renewals,
  revocations, the emergency rule of an outage, one listener per account, and a
  heartbeat that takes its counters away and brings them back when it fails;
* the relay of streams: ranked binary chunks and base64 texts of many streams on
  one wire, each to its own HTTP body, with both wire formats;
* the traffic ledger: double-entry counters, minutes closed and sent, listening
  sessions and the resumes that consume cuts;
* the Devialet AIR block coder, packet and check;
* the lexical reader of JavaScript literals;
* the detector of new forum messages and the deposit that happens once;
* percent coding and the removal of the token from a query.

## How it is laid out

Each stateful part has a specification (`SessionsSpec`, `RelaisSpec`,
`TraficSpec`): one function from state to state per call, an enumeration of the
calls, and the runs they make. The invariants are in `SessionsProofs`,
`RelaisProofs` and `TraficProofs`; the guarantees over whole runs in
`SessionsTheoremes`, `RelaisTheoremes`, `TraficTheoremes`, `TraficEcoute` (the
listening time, with its own invariant), `TraficReprises` (the resumes, with
theirs) and `ForumTheoremes`. `SessionsExactes` and `SessionsRonde` say of each
call exactly what it grants and changes; `SessionsAppels` and `TraficAppels` tie
the history kept in the states to the calls of the run. `CrcReste` says which
code the check is.
The modules `Sessions`, `Relais` and `Trafic` hold the classes, with fields
updated in place and the loops of the source, and every method is proved to do to
the abstract value `Vue()` what the specification says. `Base64`,
`MorceauBinaire`, `Crc`, `BlocAir`, `PaquetAir`, `LitJs`, `Forum`, `Verser` and
`Pourcent` hold the algorithms: the loops of the source as methods, against
recursive functions about which the lemmas speak. `Commun` holds options,
results and sums of counters.

States carry history next to what the program stores: a journal of what others
can observe (sessions), the frames each body has seen (relay), the bytes counted,
the minutes closed, accepted and dropped, the sessions ended and the resumes
(ledger), the messages of validated rounds (forum). No operation reads it.

## Premises

* Calls are atomic steps, except the heartbeat, which is two steps with
  everything else free to happen between. The read and the store of the last
  sound at `tune-bridge/src/sessions.rs:645-647` are not one step in the program;
  the guarantee of one listener per account supposes that they are. A minute too
  is closed in one step: in the program a count that slips between the reset of
  the global counters and that of its server falls into two different minutes.
* The clock of a run does not go back; drawn tokens, challenges and request
  identifiers are new. Minutes may be closed with any numbers: where increasing
  numbers are needed, the statement says so.
* Signatures and the key set are answers given to the model (`LaissezPasser`
  carries what the checks before, between and after the server and expiry checks
  of `tune-laissez-passer/src/lib.rs:457-526` answer); the site, the network and
  the forum are inputs of the steps.
* A caller uses a session or a counter handle only after having obtained it.
* The forum guarantees suppose that the inventory and the details are read
  together, threads only grow and reply numbers increase with time;
  `DetailTardif` shows why the first is needed, and `PerdueApres` exactly which
  replies any reading loses.

## Where the code and its comments differ

* A clean end is said to mean that everything has gone out
  (`tune-bridge/src/trafic.rs:35`); an unreadable base64 text is dropped and the
  end is still clean. `FinPropreComplete` gives the exact condition.
* The base64 decoder is called strict (`tune-bridge/src/ws_server.rs:576-581`); it
  lets non-zero trailing bits through. `EncoderDecoder` gives the exact condition.
* A key absent from an issue is said never to be swallowed
  (`scripts/verser-message-forum.py:46-60`); a body that holds another marker line
  swallows that key. `RefusExact` gives the exact condition.
* Only the minutes the site accepted are said to leave the queue
  (`tune-bridge/src/trafic.rs:63-66`); one number borne by two minutes removes
  both. `AcquitterExact` gives the exact condition.
* An invalid percent sequence is said to be kept
  (`tune-bridge/src/api_proxy.rs:287-288`); the number parser takes a leading plus
  sign, so that a plus sign followed by one hexadecimal digit is read as that
  digit. `InvalideGardee` gives the exact condition, `PlusApresPourcent` an input.

## Model

| member | source | states |
|---|---|---|
| SessionsTheoremes.UneEcouteParCompte | tune-bridge/src/sessions.rs:640-664 | In every state of every run, two sessions of the table that belong to one account and are both playing are the same session |
| SessionsTheoremes.EcouteReprise | tune-bridge/src/sessions.rs:644-664 | In every reachable state, sound through a session of the table removes exactly the other sessions of that account that were playing, with the motive of a listening resumed elsewhere, and that session then plays |
| SessionsTheoremes.TableSaine | tune-bridge/src/sessions.rs:444-447 | In every reachable state no session of the table carries a revoked device or pass, cut tokens and open tokens are disjoint, and both tables keep their bounds |
| SessionsTheoremes.OuvertureJustifiee | tune-bridge/src/sessions.rs:457-536 | Every opening consumed a challenge issued for that server at most 60 s before and used for nothing else; an emergency opening comes right after a failed probe at the same instant, for a device the site confirmed at most 7 days before and a pass expired for at most 24 h; any other opening had a pass that was not expired |
| SessionsTheoremes.OuvertureParSonAppel | tune-bridge/src/sessions.rs:457-498 | Every opening in the history of a run was written by one call of the run that asked for it with everything an opening takes, its signature good, and was granted it; when it is an emergency, that same call made the failed probe just before it and wrote nothing else |
| SessionsTheoremes.OuvertureDite | tune-bridge/src/sessions.rs:538-575 | A call is granted exactly when an opening is recorded, with the token, challenge, expiry and emergency flag of the reply; a refused call opens nothing; an emergency grant probed the site itself, found it down, and wrote the probe and the opening only |
| SessionsTheoremes.RenouvellementJustifie | tune-bridge/src/sessions.rs:579-608 | Every renewal consumed its own fresh challenge of the same server, for a token opened earlier with that server and device, and a pass not expired |
| SessionsTheoremes.RefusSansEffet | tune-bridge/src/sessions.rs:579-606 | A refused renewal changes no session and cuts at most the one presented |
| SessionsTheoremes.ServieJustifiee | tune-bridge/src/sessions.rs:613-640 | A session is served within the latest expiry granted to its token, or at most 24 h later while the last exchange that sets the flag had failed (reading the key of a server again does not set it) and for a device confirmed at most 7 days before |
| SessionsTheoremes.BilanDesBattements | tune-bridge/src/sessions.rs:790-861 | For every session and every server, the amount ever counted equals the amount in accepted heartbeats, plus what is in flight, plus what is still in the counter, counting being free to happen between sending and answer |
| SessionsTheoremes.IdentiteGardee | tune-bridge/src/sessions.rs:594-606 | A session keeps its server, account, device and key for ever and its expiry never goes back; history only grows |
| SessionsTheoremes.CoupeePourToujours | tune-bridge/src/sessions.rs:623-640 | A token out of the table never again yields a session nor renews one, in any later state |
| SessionsProofs.ExecutionTient | tune-bridge/src/sessions.rs:723-862 | The whole invariant (shape and bounds, one listener per account, nothing revoked, challenges, confirmed devices, expiries, counters, sound history) holds in every state of every run |
| SessionsProofs.PasTient | tune-bridge/src/sessions.rs:371-862 | Every permitted call, each half of the heartbeat included, keeps that invariant |
| SessionsExactes.OuvertureExacte | tune-bridge/src/sessions.rs:457-575 | An opening is granted if and only if its challenge is good for that server, the pass passes every check, the signature is good, nothing of it is revoked, the key of the server agrees, there is room, a token can be drawn, and either the pass has not expired and the site does not refuse, or it expired within 24 h, the probe fails and the device was seen within 7 days; a refusal answers the first check that failed, in the order of the source |
| SessionsExactes.OuvertureEffet | tune-bridge/src/sessions.rs:457-575 | Whatever the answer the challenge is spent, the flag and the known devices follow what the site said if it was probed or asked; refused, no session changes; granted, exactly one is added, with the claims, the name and the site identifier given, and exactly those the site names are cut |
| SessionsExactes.RenouvellementExact | tune-bridge/src/sessions.rs:579-608 | A renewal is granted if and only if the session is in the table and a good challenge of its server, a signed pass that holds, not revoked, and the same account, device and key are presented; a refusal answers the first check that failed, or what the token was cut with |
| SessionsExactes.RenouvellementEffet | tune-bridge/src/sessions.rs:579-608 | A granted renewal changes the expiry, the pass number and the emergency flag of that session and nothing else; a refused one cuts the session exactly when the revocation alone was against it; the challenge is spent when the session was in the table |
| SessionsExactes.DefiExact | tune-bridge/src/sessions.rs:371-386 | A challenge is issued if and only if a string can be drawn and fewer than 10 000 remain once stale ones are forgotten for want of room; it is for that server and for 60 s |
| SessionsExactes.ServiceExact | tune-bridge/src/sessions.rs:613-640 | In any state a token yields its session if and only if the session is in the table, of the server presented and still valid; with another server nothing changes and the answer is a refusal; one no longer valid is cut; a cut token answers its recorded rejection; any other string is no session token |
| SessionsExactes.EcouteExacte | tune-bridge/src/sessions.rs:644-664 | Sound through a session dates it and cuts, with its name or device in the motive, exactly the other sessions of its account heard within two minutes, unless it was heard within two minutes itself |
| SessionsExactes.ReponseExacte | tune-bridge/src/sessions.rs:813-845 | After an accepted heartbeat a session of the table stays if and only if no entry of the list names its site identifier and neither its device nor its pass is revoked; one that leaves answers the motive of the first entry naming it, or its revocation; the revocations are noted with the time the round began; the flag says whether a second reading of the keys failed |
| SessionsExactes.SansReponseExacte | tune-bridge/src/sessions.rs:846-859 | After a heartbeat without answer every counter it carried is back on top of what was counted meanwhile, and the table is as it was |
| SessionsRonde.MenageExact | tune-bridge/src/sessions.rs:726-744 | Housekeeping cuts exactly the sessions no longer valid and keeps exactly the challenges not stale, the cuts of at most 10 minutes, the revocations of at most an hour and the devices seen within 7 days |
| SessionsRonde.ListeExacte | tune-bridge/src/sessions.rs:746-752 | The openings presented again are exactly those of the table the site has not seen, in the order of the table |
| SessionsRonde.RejouerExact | tune-bridge/src/sessions.rs:753-788 | The replay stops at the first silence; each session answered yes takes the identifier and name given; a session leaves the table if and only if one of the answers refuses it or names the identifier it has by then, and it answers what such an answer said; the flag and the dates of the devices follow |
| SessionsRonde.ReleverExact | tune-bridge/src/sessions.rs:790-812 | A heartbeat carries the counters of exactly the sessions of the table the site knows and the non-zero counts of the inherited link, which are reset; nothing leaves when there is neither |
| SessionsRonde.EnvoiExact | tune-bridge/src/sessions.rs:723-812 | The first half of a round is that housekeeping, then that replay of that list, then that report |
| SessionsAppels.BilanDesAppels | tune-bridge/src/sessions.rs:790-861 | Read off the calls of a run: what they counted for a session or a server is what its accepted heartbeats carried, plus what is in flight, plus what waits in the counter |
| SessionsAppels.ConnuExactement | tune-bridge/src/sessions.rs:450-453 | In every reachable state a device is known if and only if the history holds a confirmation of it at most 7 days old |
| SessionsAppels.ServiceExactement | tune-bridge/src/sessions.rs:613-640 | In every reachable state a token yields its session if and only if the session is in the table, of the server presented, and within the latest expiry the history grants, or within 24 h more when the last exchange that sets the flag failed and the history confirms the device within 7 days |
| Sessions.Session.Compter | tune-bridge/src/sessions.rs:197-199 | Adds the bytes to the counter and changes nothing else of the session |
| Sessions.Sessions.NouveauDefi | tune-bridge/src/sessions.rs:371-386 | Forgets stale challenges only when the table is full, refuses when it stays full or no random string can be drawn, else issues a challenge for 60 s |
| Sessions.Sessions.ConsommerDefi | tune-bridge/src/sessions.rs:388-394 | The challenge is removed whatever happens; it is good when it was issued for that server and is not stale |
| Sessions.Sessions.Couper | tune-bridge/src/sessions.rs:668-679 | The session leaves the table and its token answers with the rejection |
| Sessions.Sessions.CouperParIdSite | tune-bridge/src/sessions.rs:681-692 | Every session of the table with that site identifier is cut, no other |
| Sessions.Sessions.Creer | tune-bridge/src/sessions.rs:546-575 | A new session under a fresh token, to be replayed exactly when the site gave no identifier |
| Sessions.Sessions.Admettre | tune-bridge/src/sessions.rs:475-535 | Signature, revocation, server key and table bound in that order, then the emergency branch or the answer of the site, with its cuts |
| Sessions.Sessions.Ouvrir | tune-bridge/src/sessions.rs:457-536 | The whole opening, probe of the site and second verification with grace included, does to the state what the specification says, error by error |
| Sessions.Sessions.Prolonger | tune-bridge/src/sessions.rs:594-608 | Expiry raised to the larger of the two, new pass, emergency cleared, same token |
| Sessions.Sessions.Renouveler | tune-bridge/src/sessions.rs:579-608 | The whole renewal, with the rejection of a cut token, the other-device refusal and the cut of a revoked one |
| Sessions.Sessions.Chercher | tune-bridge/src/sessions.rs:623-640 | Finds a session, refuses another server, cuts an expired one, answers a cut token with its rejection, and leaves other strings alone |
| Sessions.Sessions.Audio | tune-bridge/src/sessions.rs:644-664 | Marks the session as playing and cuts the other playing sessions of the account unless it was playing already |
| Sessions.Sessions.NoterHerite | tune-bridge/src/sessions.rs:694-699 | Counts a request of the inherited link for its server |
| Sessions.Sessions.Menage | tune-bridge/src/sessions.rs:726-744 | Cuts every session no longer valid and forgets stale challenges, cuts, revocations and confirmed devices |
| Sessions.Sessions.RejouerUne | tune-bridge/src/sessions.rs:763-782 | Applies the answer of the site to an opening made during an outage |
| Sessions.Sessions.Rejouer | tune-bridge/src/sessions.rs:746-788 | Replays those openings in order and stops at the first that finds the site unreachable |
| Sessions.Sessions.Relever | tune-bridge/src/sessions.rs:790-812 | Counters leave with the heartbeat and are reset; nothing is sent when there is nothing to send |
| Sessions.Sessions.BattreEnvoyer | tune-bridge/src/sessions.rs:723-812 | First half of a round: housekeeping, replay, collection |
| Sessions.Sessions.Revoquer | tune-bridge/src/sessions.rs:820-837 | Records the revocations and cuts every session they name |
| Sessions.Sessions.Remettre | tune-bridge/src/sessions.rs:846-859 | Counters of a heartbeat that did not arrive come back, added to what was counted meanwhile |
| Sessions.Sessions.BattreRepondre | tune-bridge/src/sessions.rs:813-861 | Second half of a round: the cuts, revocations and key re-read of an accepted heartbeat, or the return of the counters |
| RelaisTheoremes.LivraisonExacte | tune-bridge/src/ws_server.rs:337-388 | Over any history, a body has received in order the bytes of a beginning of its own frames, the longest the rank rule allows while someone reads; its chunks are ranks 0..k-1 if and only if rank 0 came at most once among them |
| RelaisTheoremes.RegleDesRangs | tune-bridge/src/morceau_binaire.rs:65-79 | When rank 0 comes at most once, a run of chunks passes the rank rule exactly when its ranks are 0, 1, 2 and so on |
| RelaisTheoremes.ZeroUnique | tune-bridge/src/morceau_binaire.rs:63-79 | A run that passes the rank rule is numbered 0, 1, 2 and so on if and only if rank 0 came at most once in it |
| RelaisTheoremes.VuesJustes | tune-bridge/src/ws_server.rs:403-473 | The frames a body is said to have seen are those read off the history alone, between the start that answered its request and its end |
| RelaisTheoremes.AttenteJuste | tune-bridge/src/ws_server.rs:403-420 | A request waits, by the history alone, from when it is made until it is given up, answered, or the server goes |
| RelaisTheoremes.LecteurJuste | tune-bridge/src/ws_server.rs:403-473 | A body is read, by the history alone, from a start below status 400 that answered a waiting request with the client there, until the client leaves |
| RelaisTheoremes.FinPropreExacte | tune-bridge/src/ws_server.rs:516-530 | While someone reads, an end is marked clean exactly when every frame since the start passed the rank rule |
| RelaisTheoremes.FinPropreVient | tune-bridge/src/ws_server.rs:516-530 | A body is marked clean only by the end of its own stream, come while its sink was open |
| RelaisTheoremes.FinPropreComplete | tune-bridge/src/ws_server.rs:516-530 | A clean stream lost nothing to the rank rule or the sink; it delivered every frame whole and in place exactly when every base64 text among them reads |
| RelaisTheoremes.TexteIllisiblePerdu | tune-bridge/src/ws_server.rs:500-505 | A concrete stream that ends clean without its one, unreadable, frame |
| RelaisTheoremes.RangZeroRejoue | tune-bridge/src/morceau_binaire.rs:65-69 | A concrete stream where rank 0 sent again is delivered again: the family `ZeroUnique` shuts out |
| RelaisTheoremes.FermePourToujours | tune-bridge/src/ws_server.rs:372-388 | Once the sink of a body is closed nothing more ever reaches it |
| RelaisTheoremes.Independance | tune-bridge/src/ws_server.rs:337-388 | The body and sink of a stream are the same as if the other streams of the wire had never been |
| RelaisProofs.JusqueTient | tune-bridge/src/ws_server.rs:337-530 | After any permitted history, what is known of every body holds |
| RelaisProofs.PasTient | tune-bridge/src/ws_server.rs:337-530 | Every event keeps what is known of every body |
| Relais.Canal.Envoyer | tune-bridge/src/ws_server.rs:384-387 | Bytes are queued when someone reads, refused otherwise |
| Relais.Connexion.HandleServerBinary | tune-bridge/src/ws_server.rs:337-388 | A binary frame does what the specification says of the chunk it encodes, and an unreadable one does nothing |
| Relais.Connexion.Suivre | tune-bridge/src/morceau_binaire.rs:65-90 | A starting stream forgets the ranks of closed ones; a stream without a sink loses its own; otherwise the rank rule |
| Relais.Connexion.HandleServerText | tune-bridge/src/ws_server.rs:268-275 | A text frame is a chunk exactly when it starts with the prefix, and is cut at its first colon |
| Relais.PrefixeLu | tune-bridge/src/ws_server.rs:19 | The prefix of a text chunk reads BINARY and a colon |
| Relais.Connexion.TransmettreMorceau | tune-bridge/src/ws_server.rs:475-514 | A text chunk is decoded and queued, skipped when unreadable, and closes the sink when nobody reads |
| Relais.Connexion.OuvrirFlux | tune-bridge/src/ws_server.rs:403-473 | A start answers the request that waits; a status of 400 or more opens no sink, nor does a client that has gone |
| Relais.Connexion.FermerFlux | tune-bridge/src/ws_server.rs:516-530 | The sink goes, and the stream is marked clean if it still had one |
| Relais.Connexion.Deconnecter | tune-bridge/src/ws_server.rs:218-222 | When the server goes nothing waits any more, every sink falls and no body is marked clean for it |
| Relais.Connexion.Partir | tune-bridge/src/ws_server.rs:384-387 | When the client goes its body is no longer read, nothing else changes |
| Relais.Connexion.ResoudrePending | tune-bridge/src/ws_server.rs:532-574 | A whole answer goes to the request that waits; an unreadable base64 body becomes a 502 without body |
| MorceauBinaire.LireTrame | tune-bridge/src/morceau_binaire.rs:9-52 | Reading undoes writing for every identifier of 1 to 255 bytes of UTF-8, 64-bit rank and payload |
| MorceauBinaire.AccepteExactement | tune-bridge/src/morceau_binaire.rs:36-52 | A frame is accepted exactly when it is the writing of some chunk, which is then the chunk read |
| MorceauBinaire.Utf8Exact | tune-bridge/src/morceau_binaire.rs:46-47 | The identifiers taken as UTF-8 are exactly the writings of Unicode scalar values of section 3 of RFC 3629 |
| MorceauBinaire.Rangs.Accepter | tune-bridge/src/morceau_binaire.rs:63-79 | Rank 0 opens, the expected rank advances, any other forgets the stream |
| MorceauBinaire.Rangs.NeGarderQue | tune-bridge/src/morceau_binaire.rs:85-89 | Only open streams are kept, with their ranks |
| Base64.DecoderBase64 | tune-bridge/src/ws_server.rs:582-612 | The loop of the decoder computes the block-by-block specification |
| Base64.AccepteExactement | tune-bridge/src/ws_server.rs:576-612 | Accepted exactly: length a multiple of four, standard alphabet, padding only in the last two places of the last block; then the output has three quarters of the length less the padding |
| Base64.DecoderEncoder | tune-bridge/src/ws_server.rs:582-612 | The decoder inverts the encoding of section 4 of RFC 4648 on every byte sequence |
| Base64.EncoderDecoder | tune-bridge/src/ws_server.rs:606-612 | Encoding gives an accepted text back exactly when its unused trailing bits are zero |
| Base64.Alphabet | tune-bridge/src/ws_server.rs:582-604 | The values and characters are those of the alphabet of section 4 of RFC 4648 |
| Base64.BitsPerdus | tune-bridge/src/ws_server.rs:606-612 | A text with non-zero trailing bits that is accepted and not given back |
| TraficTheoremes.OctetsConserves | tune-bridge/src/trafic.rs:177-196 | Over any run, the bytes the calls brought in and sent out in each category, those of a session in the category it was opened with, are those of the closed minutes and the live counters; with increasing minute numbers, those of accepted, waiting and dropped minutes and the live counters |
| TraficTheoremes.MinutesConservees | tune-bridge/src/trafic.rs:385-393 | When minutes are closed with increasing numbers, each closed minute is waiting, accepted or dropped exactly once; the queue is the end of the closed minutes, at most 1440 long |
| TraficTheoremes.DoubleEcriture | tune-bridge/src/trafic.rs:309-384 | In every closed minute, global bytes in, bytes out, stream bytes, sessions and resumes are the sums of the rows of the servers |
| TraficTheoremes.PoigneesDansLaCarte | tune-bridge/src/trafic.rs:283-291 | A handle always leads to the counters the map holds; counters outside the map are idle and held by nobody |
| TraficTheoremes.DepartOisif | tune-bridge/src/trafic.rs:312-338 | A server leaves the map only at the close of a minute in which it counted nothing, held by nobody |
| TraficTheoremes.ClotureExacte | tune-bridge/src/trafic.rs:309-394 | The close of a minute holds a row, with the sums of its counters, for exactly the servers of the map that counted something; every counter of the map and of the whole is back to zero, the cuts kept; a server stays if and only if it has a row or is held; the queue keeps its last 1440 minutes |
| TraficTheoremes.EcoutesConservees | tune-bridge/src/trafic.rs:415-551 | Sessions started, as many as the calls that opened one, less those ended in each of the three ways, are the sessions open; each counter counts exactly the ended sessions the calls class its way: left before the end of the stream was called, complete when that end and the clean mark were, cut by the server otherwise |
| TraficEcoute.DureesConservees | tune-bridge/src/trafic.rs:529-532 | For every server over any run, whatever the clock, the listening milliseconds in the rows of the closed minutes and in the live counter are those its finished sessions lasted, each counted once; every finished session belongs to a server |
| TraficEcoute.PasTemps | tune-bridge/src/trafic.rs:309-551 | Every permitted call keeps that listening ledger |
| TraficTheoremes.FinUneFois | tune-bridge/src/trafic.rs:529-551 | A session ends once: how it ended never changes and it is never open again |
| TraficAppels.FinsParAppels | tune-bridge/src/trafic.rs:496-551 | By the calls alone: which sessions are open and which ended, in which of the three ways, and each with the server, category and stream of the call that opened it |
| TraficAppels.DatesDites | tune-bridge/src/trafic.rs:415-447 | A session is dated by the call that opened it and its end by the call that ended it |
| TraficAppels.PoigneesDites | tune-bridge/src/trafic.rs:283-291 | The handles held on the counters of a server are those the calls gave, by asking or copying, less those let go or taken over by a session |
| TraficReprises.RepriseExacte | tune-bridge/src/trafic.rs:208-228 | Over any run only a session opened past byte zero resumes an end: one not complete of the same stream and server less than 60 s old and not resumed before; and it does, taking one no later than any such end, as soon as there is one with fewer than 32 others of its server after it |
| TraficReprises.ExecutionSuivies | tune-bridge/src/trafic.rs:208-228 | In every reachable state the cuts of a server are in the order of the ends, and every end not complete nor resumed is among them unless it is a minute old or 32 others of its server came after it |
| TraficTheoremes.ReprisesBornees | tune-bridge/src/trafic.rs:217-228 | Each resume consumed an end, not complete, of the same stream on the same server less than 60 s before; no end is consumed twice; resumes never exceed such ends |
| TraficTheoremes.CoupuresGardees | tune-bridge/src/trafic.rs:208-214 | Each server keeps at most 32 cuts, all real ends not yet resumed |
| TraficTheoremes.EnvoiExact | tune-bridge/src/trafic.rs:656-702 | Given increasing numbers, a send puts out one packet of at most 120 minutes per answer from 200 to 299 in a row, in order; a failure leaves the end of the queue and names the refusal, a full success empties it, no token does nothing |
| TraficProofs.AcquitterExact | tune-bridge/src/trafic.rs:402-405 | Acknowledging a packet removes exactly the packet when, and only when, no minute behind it bears a number of the packet |
| TraficTheoremes.MinuteJamaisEnvoyee | tune-bridge/src/trafic.rs:402-405 | A queue of multiples of 60 with one number twice, where a minute never sent is removed |
| TraficTheoremes.BoucleCroissante | tune-bridge/src/trafic.rs:713-730 | With a clock that does not go back, the loop closes minutes in increasing order |
| TraficProofs.ExecutionTient | tune-bridge/src/trafic.rs:270-551 | The invariant of the ledger holds in every state of every run |
| TraficProofs.PasTient | tune-bridge/src/trafic.rs:270-551 | Every permitted call keeps the invariant of the ledger |
| Trafic.CompteursServeur.NoterCoupure | tune-bridge/src/trafic.rs:208-214 | The oldest cut leaves a full list, then the new one is added |
| Trafic.CompteursServeur.PrendreCoupure | tune-bridge/src/trafic.rs:217-228 | Old cuts are dropped, then the first of the same stream is taken out |
| Trafic.CompteursServeur.Relever | tune-bridge/src/trafic.rs:312-324 | Every counter is read and reset, the cuts stay |
| Trafic.Trafic.Serveur | tune-bridge/src/trafic.rs:283-291 | The counters of a server, made at the first request, with one more reference |
| Trafic.Trafic.Entree | tune-bridge/src/trafic.rs:293-296 | Bytes in counted in both books |
| Trafic.Trafic.Sortie | tune-bridge/src/trafic.rs:298-301 | Bytes out counted in both books |
| Trafic.Trafic.OuvrirSession | tune-bridge/src/trafic.rs:415-447 | Counts a session in both books and, past byte zero, looks for a recent cut to resume |
| Trafic.Trafic.MorceauRendu | tune-bridge/src/trafic.rs:496-499 | Bytes rendered counted for the server and category of the session |
| Trafic.Trafic.FinDuFlux | tune-bridge/src/trafic.rs:514-516 | The end of the stream is noted on the session, nothing else changes |
| Trafic.Trafic.PoserFinPropre | tune-bridge/src/ws_server.rs:525-529 | The clean end is noted on the session, nothing else changes |
| Trafic.Trafic.Tomber | tune-bridge/src/trafic.rs:529-551 | Listening time, class of the end, cut recorded unless complete, reference dropped |
| Trafic.Trafic.CloreMinute | tune-bridge/src/trafic.rs:309-394 | The loop over the map, the reset of every counter, the row of each active server, the servers that leave, and the bounded queue |
| Trafic.Trafic.Acquitter | tune-bridge/src/trafic.rs:402-405 | Keeps the minutes not named |
| Trafic.Trafic.PousserAuSite | tune-bridge/src/trafic.rs:656-702 | The loop over packets computes the specification, answer by answer |
| Crc.Calculer | scripts/devialet-air-vecteurs.py:19-25 | The two loops compute the fold of the one-bit step |
| CrcReste.CrcEstReste | scripts/devialet-air-vecteurs.py:19-25 | The check of any message is the remainder, and the only one, of the division by x^16 + x^12 + x^5 + 1 of the message shifted up by sixteen with its first sixteen bits complemented |
| CrcReste.ResteUnique | scripts/devialet-air-vecteurs.py:19-25 | Such a division of polynomials over two elements has only one remainder |
| CrcReste.MotInjectif | scripts/devialet-air-vecteurs.py:19-25 | Two checks with the same remainder are the same word |
| CrcReste.ValeursConnues | scripts/devialet-air-vecteurs.py:198 | The check of the nine digits is the catalogue value 0x29B1, that of one null byte 0xE1F0 |
| Crc.ResteNul | scripts/devialet-air-vecteurs.py:19-25 | The check of any message followed by its own big-endian check is zero |
| Crc.ErreurVue | scripts/devialet-air-vecteurs.py:19-25 | Two messages that differ only within two neighbouring bytes have different checks |
| Crc.ErreurSeuleVue | scripts/devialet-air-vecteurs.py:19-25 | Two messages that differ in one byte, wherever it stands, have different checks |
| Crc.EtatsDistincts | scripts/devialet-air-vecteurs.py:19-25 | Different states stay different through the same bytes |
| Crc.BitsLineaire | scripts/devialet-air-vecteurs.py:22-24 | The shift register is linear |
| BlocAir.TzBorne | scripts/devialet-air-vecteurs.py:31-32 | What is coded lies between nothing and the whole difference and misses it by less than one step |
| BlocAir.ReluProche | scripts/devialet-air-vecteurs.py:38-43 | The reconstruction stays within the bounds of the samples and within one step of each: errors do not add up |
| BlocAir.RechercheBornee | scripts/devialet-air-vecteurs.py:35-47 | The search ends at the least shift that fits: at most 15 for a width of 10 bits; none when the width is free, which then needs at most 25 bits |
| BlocAir.LargeurBorne | scripts/devialet-air-vecteurs.py:38-44 | A block of 24-bit samples shifted by s needs at most 25 - s bits |
| BlocAir.Serre | scripts/devialet-air-vecteurs.py:48-53 | Unpacking undoes the most-significant-first packing, padding included |
| BlocAir.CoderBloc | scripts/devialet-air-vecteurs.py:35-53 | The loops of the coder compute the block of the specification |
| BlocAir.Essayer | scripts/devialet-air-vecteurs.py:37-43 | One pass of the inner loop computes the fields for one shift |
| BlocAir.BlocRelu | scripts/devialet-air-vecteurs.py:48-53 | A block followed by anything is read back, and what follows is found from the header of the block alone |
| PaquetAir.DmRelu | scripts/devialet-air-vecteurs.py:56-60 | Session, stream, rate, play flag, position and both channels as coded are read back from any packet |
| PaquetAir.PaquetControle | scripts/devialet-air-vecteurs.py:56-60 | Whatever the packet, all of it but its 128 closing null bytes has check zero |
| PaquetAir.EntenduFidele | scripts/devialet-air-vecteurs.py:35-48 | A free width gives the samples back exactly; a width of 10 bits gives each within less than 2^s with s at most 15, never outside the samples heard so far |
| PaquetAir.PaquetExact | scripts/devialet-air-vecteurs.py:56-60 | At 96 kHz and below a packet gives both channels back exactly |
| PaquetAir.PaquetProche | scripts/devialet-air-vecteurs.py:56-60 | Above 96 kHz each channel comes back within a step of its own of at most 2^15 |
| LitJs.FinChaineJs | scripts/web-contract-map.py:203-224 | The loop over a literal computes the recursive reading, and ends |
| LitJs.FinExpressionJs | scripts/web-contract-map.py:227-259 | The loop over an expression computes the recursive reading, and ends |
| LitJs.FinExacte | scripts/web-contract-map.py:203-259 | The reader finds an end exactly when a literal of the grammar stands there, and then the end of that literal |
| LitJs.LitteralLu | scripts/web-contract-map.py:203-259 | Any literal of the grammar, whatever surrounds it, is read to its end |
| LitJs.TrenteDeux | scripts/web-contract-map.py:209-210 | From the top, the bound on levels is exactly thirty-two literals one inside another |
| LitJs.FinChaine | scripts/web-contract-map.py:203-224 | An end found lies past the start and within the text |
| LitJs.CorpsApresAccolade | scripts/web-contract-map.py:170-182 | The content up to the first place where as many braces are closed as opened; none when there is no such place |
| ForumTheoremes.ExactementUneFois | scripts/nouveautes-forum.py:528-574 | Over any mix of rounds validated and lost, the validated rounds together list exactly the messages between the first moment sealed and the last, each once, and the mark is the largest reply seen |
| ForumTheoremes.DetecterExact | scripts/nouveautes-forum.py:270-334 | A coherent reading lists exactly the messages absent from the last sealed moment, each once, and its snapshot stands for the new moment |
| ForumTheoremes.DetecterDe | scripts/nouveautes-forum.py:283-330 | What any reading lists, coherent or not: threads never seen, and replies past the mark of threads never seen or whose count moved |
| ForumTheoremes.DetailTardif | scripts/nouveautes-forum.py:298-312 | A detail read later than the inventory raises the mark past a reply that no later round then lists |
| ForumTheoremes.PerdueExactement | scripts/nouveautes-forum.py:298-312 | No later reading, of any forum, lists a reply of a thread if and only if its number is at or below the mark of the snapshot |
| ForumTheoremes.PerdueApres | scripts/nouveautes-forum.py:283-330 | After any reading, coherent or not, a reply it did not list is lost to every later one if and only if it was at or below the mark before, or at or below a reply of any thread that this reading lists |
| ForumTheoremes.RondeTient | scripts/nouveautes-forum.py:565-574 | A round keeps what is sealed and in flight consistent |
| ForumTheoremes.ValiderTient | scripts/nouveautes-forum.py:534-541 | Validation seals what was in flight, and nothing when nothing was |
| ForumTheoremes.AmorceTient | scripts/nouveautes-forum.py:546-563 | The first reading seals the moment without listing it |
| Forum.DetecterFils | scripts/nouveautes-forum.py:270-334 | The loops of the detector compute the specification, new threads first, then those that moved |
| Forum.VerserReponses | scripts/nouveautes-forum.py:298-311 | Every reply of a thread past the mark, and the raised mark |
| Verser.RefusExact | scripts/verser-message-forum.py:169-185 | A call is refused exactly when its key stood in the issue from the start or was set by an earlier deposit of the run |
| Verser.UneSeuleFois | scripts/verser-message-forum.py:169-185 | Whatever the bodies hold, no key is posted twice: a second call returns 3 and leaves the issue as it was |
| Verser.SansMasque | scripts/verser-message-forum.py:98-116 | With bodies that hold no marker, a key absent at the start is refused only after its own deposit, even if its number begins another |
| Verser.CorpsQuiMasque | scripts/verser-message-forum.py:98-116 | A body that holds another key alone on a line masks it |
| Verser.MarqueurExact | scripts/verser-message-forum.py:88-108 | A line is a marker exactly when it is blanks, a prefix, digits that make the number, blanks |
| Verser.ClesDuDepot | scripts/verser-message-forum.py:176-178 | A deposit sets its own key and whatever keys its body held, no other |
| Verser.DepotExact | scripts/verser-message-forum.py:176-178 | The comment is, line by line, the body without its trailing blanks, an empty line, the key as the kind and the number, and an end of line |
| Verser.TextesDistincts | scripts/verser-message-forum.py:91-95 | Two keys never read alike |
| Verser.DejaVerse | scripts/verser-message-forum.py:111-116 | The loop over the texts answers membership in the set of keys |
| Verser.Issue.Verser | scripts/verser-message-forum.py:169-185 | The issue after a call, and the code returned |
| Pourcent.EncoderPourcent | tune-bridge/src/api_proxy.rs:226-236 | The loop computes the code of each byte |
| Pourcent.DecoderPourcent | tune-bridge/src/api_proxy.rs:289-311 | The loop computes the reading of plus signs and percent sequences, invalid ones kept |
| Pourcent.DecoderEncoder | tune-bridge/src/api_proxy.rs:226-311 | Decoding undoes encoding on every byte string |
| Pourcent.EncoderSur | tune-bridge/src/api_proxy.rs:224-236 | What encoding writes is unreserved (section 2.3 of RFC 3986), percent signs apart |
| Pourcent.EncoderExact | tune-bridge/src/api_proxy.rs:224-236 | Letters, digits and the four signs stand for themselves, any other byte is a percent sign and its two digits in capitals, byte by byte |
| Pourcent.DecoderTete | tune-bridge/src/api_proxy.rs:293-308 | A plus sign reads as a space, a percent sign takes the two hexadecimal digits behind it, or the plus sign and the digit behind it, anything else reads as itself, and what follows is read on its own |
| Pourcent.InvalideGardee | tune-bridge/src/api_proxy.rs:287-308 | A percent sign not followed by two hexadecimal digits is kept, and what follows read on its own, if and only if it is not followed by a plus sign and one hexadecimal digit; those are read as that digit |
| Pourcent.CouperExact | tune-bridge/src/api_proxy.rs:260-261 | A pair is cut at its first equals sign, exactly when it has one |
| Pourcent.JetonExact | tune-bridge/src/api_proxy.rs:238-249 | A pair gives a token exactly when it is one of the two names, an equals sign and the code of that token |
| Pourcent.PremierExact | tune-bridge/src/api_proxy.rs:242-249 | The token of a query is that of the first pair that names one which is not empty |
| Pourcent.PlusApresPourcent | tune-bridge/src/api_proxy.rs:298 | One sequence of that family, read as the byte 5 |
| Pourcent.ResteExact | tune-bridge/src/api_proxy.rs:256-268 | The query that goes on, cut again, is exactly the pairs kept; there is none when none is kept |
| Pourcent.GardeesEnOrdre | tune-bridge/src/api_proxy.rs:257-266 | A pair that is not empty and does not carry the token keeps its place among the others |
| Pourcent.JetonRetire | tune-bridge/src/api_proxy.rs:242-268 | The query that goes on never yields the token that was taken out |
| Pourcent.RequeteIntacte | tune-bridge/src/api_proxy.rs:253-255 | A query without the token and without empty pairs goes through unchanged |

## Left out

- WebSocket, HTTP, channels, locks and timers: frames, answers and time are inputs of the steps; back-pressure and byte counting inside the relay of streams are not modelled.
- Overlap of two connections of one server: the old connection unregisters by identifier alone, so the model has one connection per server at a time and claims nothing of overlap.
- Cryptography and pass verification: signatures, key sets and the text of passes are answers given to the model; identifiers that are only compared are numbered.
- Widths of counters: byte counters, ranks and the counters of sessions are unbounded here and 64 bits wide in the program.
- The key set read again inside an opening for an unknown key: it is a step of its own, before the opening.
- A session's notification of being cut to the bodies that still hold it: bodies notice it outside the model.
- Formats, first-byte delays and error counters of the traffic minutes: counters that nothing else depends on.
- The reading of the `Range` header: whether a request starts past byte zero is an input.
- The site identifier and the playing flag that go with each counter of a heartbeat: both are read from the session as it is reported, and nothing depends on them here.
- Cuts still kept although 32 others came after them (some were resumed meanwhile): a resume may take one, and nothing promises it does.
- The order of the rows of a minute: rows are a map by server here, sorted by server in the program.
- The final sort of the lines of the forum detector and the columns besides message, thread and author side: the guarantees do not depend on them.
- A second seeding of the forum state in the middle of a run, and a reading with the correction for new threads turned off, which only the self-test makes.
- Negative message numbers in the deposit script: numbers are primary keys of the forum.
- Simultaneous deposits on one issue: calls follow one another.
- Forms of Devialet AIR packets other than audio: stop, command, return and announcement packets.
- `normaliser_route` and what follows the literal reader: reducing a route is not idempotent on inputs such as `$${x}`, and the rest is extraction by regular expressions.
- Registration caps, licence cache, header allow-lists, page policy, ticket checks: mostly one-branch facts.
- The masking of tokens in logged addresses: a simpler filter over the same pairs.
- UTF-8 replacement and trimming in the query filter: an arbitrary function of the decoded bytes, so that the guarantees hold whatever it does.
