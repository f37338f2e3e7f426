# A verified model of the gateway protocols of CRMBackend

The CRM never pushes anything to a field gateway. It leaves orders, tokens and documents written on a
row, and the gateway asks for them and acknowledges what it did over a network that loses, repeats and
reorders messages. This project models the protocols that live on that row, and the pure rules they
rest on, and proves what holds of every input, every request and every run.

Names are the source's own. A class stands for each object or table the services write in place; each
of its methods is proved equal to a function of the old state, and the lemmas are about those functions
and about sequences of requests. A request is one atomic step: an error leaves the rows as they were,
as the request-scoped session does (app/core/database.py:97-105). Instants are UTC microseconds.

| file | what it models |
|---|---|
| Wrappers.dfy, Texto.dfy | results and error classes; trimming and numbers written in a base |
| Versiones.dfy | reading, comparing and normalising a firmware version |
| Ventana.dfy | the daily update window and the next instant at which one is open |
| ConfigFlota.dfy | the fleet's update settings, read from text rows |
| Actualizacion.dfy | one gateway's row during an update: what each request does to it |
| Servicio.dfy | the same requests written in place, and the rollout over many gateways |
| Traza.dfy | the moves a row can make, and what follows from them in every run |
| Corridas.dfy | runs of panel and device requests; they make only those moves |
| Cota.dfy | the bound on one rollout's changes is reached, however many failures come early |
| Planta.dfy | runs of a whole fleet, where a rollout reaches many gateways or none |
| Limitador.dfy | the sliding-window login limiter |
| Enrolamiento.dfy | one-use enrolment tokens and credential rotation |
| ConfigGateway.dfy, Registros.dfy | the configuration document, its fingerprint and switch; register addresses |
| Equipos.dfy | Modbus connection fields and the equipment table |
| Ajustes.dfy | platform settings with secrets encrypted at rest |
| Flota.dfy | the fleet summary against the fleet tree |

Library functions are parameters with the one property they are used for: an injective lookup hash and
fingerprint, a salted hash that verifies exactly its own secret, decryption that undoes encryption. A
time zone is two offset functions. `DiasEnOrden` says its windows open in the order of their days,
which also holds of places that crossed the date line; the rest of what is asked of a zone is about its
clock in the days around the instant in question, never about its whole history. Acknowledgements may
arrive at any moment with any content, which covers every delivery order and every duplication.

Where the code and its own comments disagree, the model follows the code:

- The last line of `proxima_ventana` is documented as unreachable. `FinalSii` says exactly when it
  answers, and `FinalAlcanzable` reaches it in a zone that sets its clock back three hours.
- `proxima_ventana` is not right in a place that skips a whole day (`ProximaVentanaPuedeFallar`).
  `ProximaVentanaExacta` gives the exact condition, and `ProximaVentanaEsLaProxima` what the clock must
  not do around an instant for the answer to be right there.
- The heartbeat route says the firmware notice never makes it fail. `LatidoFallaSii` says exactly
  when it does, and `LatidoConSecretoFalla` gives a table of settings with which it always does.
- `retire` says gateways that already installed the release keep pointing to it. They do only until their
  next question with updates on: `RetiroSuelta` and `AplicadaConservaSii` say exactly when the target goes.
- The configuration fingerprint is meant to change only with the configuration. Two devices of one
  gateway may share a unit id on different buses, and then it depends on the order in which the
  database returns them (`DocumentoSinOrdenSii`); and it changes with the firmware version
  (`FirmwareNuevoDeriva`).
- A repeated `aplicada` ack overwrites the previous version with the new one (`AcuseRepetido`), and a
  failure reported before the download spends no attempt (`FalloTempranoNoGasta`).

## Model

| member | source | states |
|---|---|---|
| Versiones.ParseVersionEsLaGramatica | app/domain/firmware_update.py:25-67 | A text is read exactly when, trimmed, it matches `v?d+.d+.d+`, and the three numbers are those of its three groups. |
| Versiones.NormalizarEsCanonica | app/domain/firmware_update.py:49-56 | Normalising a readable version never fails, keeps its numbers, is idempotent, and gives three numbers as they are printed, with dots between. |
| Versiones.MismaVersionPorForma | app/domain/firmware_update.py:82-95 | Two texts are the same version iff both are readable and normalise to the same text, so `v`, blanks and leading zeros never matter; a missing one equals nothing. |
| Versiones.CompararEsOrdenTotal | app/domain/firmware_update.py:70-79 | Comparison fails exactly on an unreadable text and is otherwise a total order, antisymmetric and transitive, with "same version" as its equality. |
| Versiones.EsDescensoSii | app/domain/firmware_update.py:98-109 | A rollout is a step back iff both versions are readable and the new one is smaller number by number, and never to the same version. |
| Ventana.ProximaVentanaExacta | app/domain/firmware_update.py:193-219 | With daily openings in order, the three-day search returns the least instant from now at which any day's window is open iff the window of the day before yesterday, or of the day after tomorrow, does not interfere. |
| Ventana.ProximaVentanaEsLaProxima | app/domain/firmware_update.py:193-219 | At any instant, for every hour and window, in any zone with its days in order whose clock was not just put forward by more than the window leaves of a day, nor is about to be by more than a day, the result is that least instant, over all integer days. |
| Ventana.DoceHorasBastan | app/domain/firmware_update.py:193-219 | In particular it is at every instant, for every hour and every window of up to 720 minutes, wherever no two offsets are more than twelve hours apart. |
| Ventana.ProximaVentanaPuedeFallar | app/domain/firmware_update.py:178-219 | A place that skips a day, with the longest window, is told to wait while a window is open. |
| Ventana.ProximaNoEsPasada | app/domain/firmware_update.py:193-219 | The date returned is in the past iff the three days ran out and the window of the day after tomorrow had already opened; never where the clock is not put forward by more than a day from now to that window. |
| Ventana.FinalSii | app/domain/firmware_update.py:205-219 | With daily openings in order, the three days run out iff the clock went back, since tomorrow's opening, by at least what is left of today plus the hour and the window; then the answer is the opening of the day after tomorrow, and otherwise it is now or an opening of the three days still ahead. |
| Ventana.FinalInalcanzableSinCambios | app/domain/firmware_update.py:217-219 | With a constant offset the last line is never reached. |
| Ventana.FinalAlcanzable | app/domain/firmware_update.py:217-219 | With a three-hour setback it is reached. |
| Ventana.ConcesionTerminaAntes | app/domain/firmware_update.py:209-215 | Permission given anywhere inside an open window ends less than two windows after its opening, and before any later day's window opens iff the clock is not put forward in between by more than two windows leave of a day. |
| ConfigFlota.FallaCerrado | app/services/firmware.py:75-114 | Updates are on iff the flag reads true, the base URL is not blank, the hour and the window are readable and in range, and none of the five settings is secret. |
| ConfigFlota.BanderaSii | app/domain/firmware_update.py:112-119 | A flag is on iff, trimmed and without minding capitals, it is one of true, 1, si, sí, yes and on. |
| ConfigFlota.HoraSii | app/domain/firmware_update.py:133-146 | A text is read as an hour iff, trimmed, it is two digits below 24, a colon and two digits below 60. |
| ConfigFlota.VentanaSii | app/domain/firmware_update.py:149-162 | A text is read as a length iff, trimmed, it is a number from 1 to 720 after any zeros. |
| ConfigFlota.ConfigDice | app/services/firmware.py:75-103 | What settings that can be read say; without a readable hour or length, three in the morning, two hours and no updates. |
| ConfigFlota.ConfigFallaSii | app/services/firmware.py:75-114 | Reading the settings fails, with a business-rule error, iff the flag, the base URL, the rollback switch or the hour is secret, or the window is and the hour can be read. |
| ConfigFlota.ConfigPosibleSii | app/services/firmware.py:75-114 | Settings are what some table says iff the hour is a whole minute of the day, the window is one to 720 minutes, the base URL is trimmed, and updates are on only with a base URL. |
| ConfigFlota.HoraIdaYVuelta | app/domain/firmware_update.py:133-146 | Every hour of the day is read back from its `HH:MM` form. |
| ConfigFlota.VentanaIdaYVuelta | app/domain/firmware_update.py:149-162 | A number of minutes is accepted, as itself, iff it is between one and 720. |
| Actualizacion.TablaDeTransiciones | app/domain/firmware_update.py:254-302 | The table of transitions, state by state. |
| Actualizacion.OrdenSii | app/services/firmware.py:118-206 | With readable settings a question gets an order iff updates are on, the target exists and is offered, the state is one of the four under way, the version is not the one running, fewer than three attempts are spent, and the concession is not over or the zone is known; then a failed attempt is armed again, a concession that was over becomes the next window, and nothing else changes. |
| Actualizacion.SinOrdenSinCambio | app/services/firmware.py:118-166 | A question that gets no order, of a gateway with no target or on its way to an offered release it does not run, changes nothing. |
| Actualizacion.NuevaConcesion | app/services/firmware.py:190-201 | A gateway that slept through its window gets an order whose new date is the first instant from now at which a window is open, iff three days are enough to tell, with the days in order. |
| Actualizacion.LatidoOrdenaSii | app/api/v1/gateway_config.py:81-117 | The heartbeat hands over an order iff the question would, of the gateway with the version it reports, and leaves the same row. |
| Actualizacion.OrdenSePuedeCumplir | app/services/firmware.py:118-166 | An order goes out only with updates on, for an available release the gateway does not run, with attempts left; it carries that release and the attempts left, and keeps target and attempts. |
| Actualizacion.OrdenLlegaATiempo | app/services/firmware.py:168-201 | A concession that is not over is kept. A new one does not start in the past where the clock moves by a day at most, and, with the site's days in order, it is the next instant at which a window is open iff three days are enough to tell (`TresDiasBastan`). |
| Actualizacion.CierreSinAcuse | app/services/firmware.py:146-150 | A gateway seen running its target is closed without an ack iff it was restarting; otherwise nothing changes, and no order goes out. |
| Actualizacion.AcuseAceptadoSii | app/services/firmware.py:210-272 | An ack is accepted iff it is one of the listed moves between states and names the version of the target; rejected, it changes nothing, with the error of its case; applied, the version becomes the target's canonical form. |
| Actualizacion.CancelarSuelta | app/services/firmware_admin.py:239-270 | Cancelling is refused iff the device is restarting, and then changes nothing; otherwise it clears target, date, attempts and error and keeps the rest. |
| Actualizacion.PorQueNoSii | app/services/firmware_admin.py:274-285 | Which reason a rollout has to skip a gateway: it runs the release, has no credential, or is downloading or restarting, in that order; with none of them it is scheduled. |
| Actualizacion.AcuseEscribe | app/services/firmware.py:241-259 | An attempt is counted iff a download begins, a failure always has a reason, and the contact is recorded. |
| Actualizacion.AcuseRepetido | app/services/firmware.py:241-259 | An accepted ack is accepted again and moves only two timestamps, and for `aplicada` the previous version, which becomes the new one. |
| Actualizacion.LatidoFallaSii | app/api/v1/gateway_config.py:81-117 | The heartbeat fails iff one of the flag, the base URL, the rollback switch or the hour is a secret row, or the window is and the hour can be read, or an order would need a window of a site whose zone is unknown; then the contact is rolled back too. |
| Actualizacion.LatidoConSecretoFalla | app/services/platform_settings.py:103-116 | With a secret rollback switch every gateway's heartbeat fails; with a secret window and no hour none does. |
| Actualizacion.RetiroSuelta | app/services/firmware.py:136-141 | A question takes the target away iff updates are on, the release is retired and the gateway is not restarting; then it leaves nothing pending, the reason, and the attempts spent. |
| Actualizacion.FalloTempranoNoGasta | app/services/firmware.py:185-188 | A failure before the download, and the next question inside the concession, leave state, attempts, target and date as they were. |
| Servicio.Gateway.Pendiente | app/services/firmware.py:118-166 | The question, written in place, leaves the row and gives the answer that `Consulta` defines. |
| Servicio.Gateway.BuscarVentana | app/services/firmware.py:168-206 | A running concession is kept and one that is over is replaced; a failed attempt is armed again; an unknown zone changes nothing. |
| Servicio.Gateway.CancelarPorRetiro | app/services/firmware.py:313-327 | The row dropped because its release was retired. |
| Servicio.Gateway.DarPorAplicada | app/services/firmware.py:329-341 | The row closed without an ack, when the table allows it. |
| Servicio.Gateway.Acusar | app/services/firmware.py:210-272 | The ack, written in place, leaves the row and gives the answer that `Acuse` defines, schema check included. |
| Servicio.Gateway.Latir | app/api/v1/gateway_config.py:81-117 | The heartbeat and the question in one request, rolled back on any error but "updates are off". |
| Servicio.Gateway.Cancelar | app/services/firmware_admin.py:239-270 | Cancelling clears target, date, attempts and error, or is refused while the device restarts. |
| Servicio.Rollout | app/services/firmware_admin.py:152-237 | Exactly when a rollout succeeds; if it fails every row is as before; if it succeeds each row is reset to the new target, or untouched if it was skipped, and both lists of the answer are determined. |
| Servicio.TurnoOmiteOPrograma | app/services/firmware_admin.py:179-218 | A gateway is scheduled iff it does not run the release, has a credential and is neither downloading nor restarting; then only target, state, attempts, error, report and date are rewritten; a skipped one keeps its row and gets the reason; the request fails iff one to be scheduled needs a date and the zone is unknown. |
| Servicio.ProcedeSii | app/services/firmware_admin.py:162-195 | A rollout goes ahead iff an administrator asks, the release exists and is offered, somebody is chosen, the settings can be read, and, unless it is for now, every gateway to be scheduled has a known zone. |
| Servicio.FechaDelRollout | app/services/firmware_admin.py:190-197 | A scheduled gateway may start at once if the rollout says so; otherwise, with the days of its own site in order, at the next instant at which a window is open there iff three days are enough to tell (`TresDiasBastan`). |
| Servicio.PedirA | app/services/firmware_admin.py:179-218 | One turn of the loop, written in place, leaves the row and the line that `TurnoDe` defines. |
| Servicio.RolloutParteElDestino | app/services/firmware_admin.py:176-218 | Every gateway of the destination is in exactly one of the two lists, in the order of the destination. |
| Traza.AristaSiempre | app/domain/firmware_update.py:254-292 | In every trace each step follows an edge of the table or repeats the state, and an update being applied keeps its target and attempts. |
| Traza.IntentosSonDescargas | app/services/firmware.py:244-248 | While a target is set, the attempts equal the downloads begun since its rollout; downloads never exceed three, nor restarts the downloads. |
| Traza.CadaCambioGasta | app/services/firmware.py:118-272 | Every change of state strictly lowers the number of changes still possible, except a failure before the download, which raises it by one. |
| Traza.CambiosAcotados | app/services/firmware.py:118-272 | Over any stretch without a rollout, changes made plus changes left are at most the changes left before plus two per early failure. |
| Traza.OnceCambios | app/services/firmware.py:118-272 | After a rollout the state changes at most eleven times while the target stays, twelve in all, plus two per early failure. |
| Traza.AplicadaNoVuelve | app/services/firmware.py:143-150 | An applied update stays applied, or is dropped, until another rollout. |
| Traza.RangoNoBaja | app/domain/firmware_update.py:282-302 | Between re-arms the progress written never decreases. |
| Corridas.PasoMueve | app/services/firmware.py:118-341 | Every request of the panel or the device moves the row in one of the ways of `Traza`. |
| Corridas.DesplegarEsElTurno | app/services/firmware_admin.py:179-218 | The rollout event of a run is the turn the loop gives that gateway. |
| Corridas.CorridaEsTraza | app/services/firmware.py:118-341 | Every run of requests is a trace, whatever their order and content. |
| Corridas.InvarianteSiempre | app/services/firmware.py:190-206 | In every reachable state: no target iff no date iff nothing pending; at most three attempts, fewer when scheduled; the target exists, and every published version is readable. |
| Corridas.CatalogoTras | app/services/firmware_admin.py:76-148 | A release is published iff it is new, readable and no other has its text; retiring one takes it off offer, once, and changes no other. |
| Corridas.PreguntaOrdenaSii | app/services/firmware.py:118-206 | In every reachable state, exactly when a question gets an order: a scheduled gateway always has its target, a date and an attempt left, so however many windows it slept through it gets one as long as updates are on, the release is offered and not running, and the zone is known. |
| Corridas.TransicionSiempreValida | app/domain/firmware_update.py:254-292 | In every run every write of the state, by any actor, is one of the listed moves or a repetition, and the target is frozen while the device restarts. |
| Corridas.SiempreHayFecha | app/services/firmware.py:175-184 | In every reachable state a gateway with a target has a date, so the missing-date branch is dead. |
| Corridas.RolloutAcotado | app/services/firmware_admin.py:200-206 | In every run, the attempts, restarts and state changes of one rollout keep the bounds of `Traza`. |
| Corridas.AplicadaCorreElObjetivo | app/services/firmware.py:230-252 | Every step into `aplicada` leaves the gateway running its target's version. |
| Corridas.AplicadaSinOrdenes | app/services/firmware.py:143-150 | After that no question gets an order until another rollout. |
| Corridas.ObjetivoSigueSii | app/services/firmware.py:136-141 | In every run, between rollouts, a target stays until a cancel or a question of that kind, outside a restart, takes it away, and is then gone. |
| Corridas.AplicadaConservaSii | app/services/firmware_admin.py:123-148 | In every run, until another rollout, a gateway that installed a release keeps pointing to it iff nobody cancels and no question is asked with updates on after the release is retired. |
| Corridas.VentanaNueva | app/services/firmware.py:175-201 | A concession is replaced only by one that starts when it is over, in any zone whose clock is not about to be put forward by more than a day (`SinSaltoDeMasDeUnDia`). |
| Corridas.ConcesionesDisjuntas | app/services/firmware.py:168-201 | Between rollouts, any two concessions of a run are the same or disjoint and in order, when each question meets that same condition. |
| Corridas.AcusesNoRetroceden | app/services/firmware.py:210-261 | Any sequence of acks, repeated or reordered, never takes progress back, counts at most one attempt, and touches neither target nor date. |
| Cota.TodoPasoSeDa | app/services/firmware.py:118-261 | After any accepted rollout on a gateway with nothing pending, whatever state and attempts a run reaches, every further step that the table and the attempts allow, short of success, is made by some request, and every request of the run goes by settings that some table says. |
| Cota.OnceSeAlcanzan | app/services/firmware.py:118-272 | The bounds of `Corridas.RolloutAcotado` are exact: after any such rollout, for every number of failures before the download, a run of such requests changes state eleven times plus two for each of them, with the target still set and three attempts spent; cancelling makes the twelfth. |
| Planta.DespliegueVisto | app/services/firmware_admin.py:152-218 | Seen from one gateway, a rollout over many is its own turn when none fails and nothing at all otherwise; it is an accepted one iff the gateway is among the scheduled. |
| Planta.LaVistaEsCorrida | app/services/firmware_admin.py:152-218 | Seen from any of its gateways, from the moment the gateway is there, every run of a fleet is one of the runs the theorems of `Corridas` speak of. |
| Planta.InvarianteDeLaFlota | app/services/firmware.py:190-206 | In every reachable state of a fleet, gateways created on the way included, every gateway keeps the invariants of `Corridas.InvarianteSiempre`, and its target exists. |
| Limitador.SlidingWindowLimiter.Prune | app/core/rate_limit.py:31-36 | Pruning drops from the front of one key's deque what is not after the cut-off, and touches no other key. |
| Limitador.SlidingWindowLimiter.Hit | app/core/rate_limit.py:38-45 | An attempt is allowed iff fewer than the maximum remain after pruning, and only then remembered. |
| Limitador.SlidingWindowLimiter.Reset | app/core/rate_limit.py:47-49 | One key is forgotten and the others stay. |
| Limitador.PodarEsFiltrar | app/core/rate_limit.py:31-36 | On a deque in order, dropping from the front is filtering by the cut-off. |
| Limitador.LaColaEsLaHistoria | app/core/rate_limit.py:31-45 | In every run the pruned deque equals the whole history of allowed attempts since the key was forgotten, filtered by the same cut-off. |
| Limitador.RechazaSii | app/core/rate_limit.py:38-45 | An attempt is refused iff the maximum was already allowed in the window that ends now. |
| Limitador.NuncaMasQueElMaximo | app/core/rate_limit.py:22-45 | In every run, any interval of one window in which the key is not forgotten holds at most the maximum of allowed attempts. |
| Limitador.LasDemasClavesNoCuentan | app/core/rate_limit.py:29-49 | In every run, without the calls for other keys a key has the same deque and each attempt for it the same answer. |
| Enrolamiento.ArmarEnv | app/services/enrollment.py:191-222 | The environment is the identity followed by the table's rows that do not name it, in order. |
| Enrolamiento.EnvLlevaIdentidad | app/services/enrollment.py:204-222 | Uuid and credential go out with this exchange's values whatever the table holds; every other row goes out iff it is in the table. |
| Enrolamiento.EnvUnaVez | app/services/enrollment.py:204-222 | No variable goes out twice, the identity included. |
| Enrolamiento.ReleaseSii | app/services/enrollment.py:155-189 | A version is resolved iff both of its settings have a text and none of the three settings read is a secret. |
| Enrolamiento.EnrollmentService.ExpirePending | app/repositories/enrollment_token.py:26-41 | The live tokens of one gateway expire now, and no other row changes. |
| Enrolamiento.EnrollmentService.Issue | app/services/enrollment.py:66-105 | Issuing expires the gateway's live tokens and adds one for eight hours, or fails and leaves the table as it was. |
| Enrolamiento.EmitirSii | app/services/enrollment.py:66-105 | A token is issued iff the caller may write and sees the gateway, the token is new and the installer's address can be read; the answer is the token, its expiry eight hours on and the command; its row is new and unspent, the gateway's other live tokens expire now, and no other row changes. |
| Enrolamiento.EnrollmentService.Rotate | app/services/gateway_config.py:88-110 | Rotating replaces the hash of one gateway's credential. |
| Enrolamiento.EnrollmentService.IssueCredential | app/services/gateway_config.py:75-86 | The same rotation, for a caller that may write and sees the gateway. |
| Enrolamiento.EnrollmentService.Revoke | app/services/gateway_config.py:112-119 | Revoking leaves the gateway without a credential. |
| Enrolamiento.RotarYRevocar | app/services/gateway_config.py:75-119 | For a caller that may write and sees the gateway, after a rotation only the new credential gets in and after a revocation none does; for another caller nothing changes; no other gateway or token is affected. |
| Enrolamiento.EnrollmentService.Exchange | app/services/enrollment.py:107-153 | The exchange leaves the tables and gives the answer that `Canjear` defines, with the version and the environment read from the settings, also when it fails after writing. |
| Enrolamiento.CanjeTodoONada | app/services/enrollment.py:107-153 | It succeeds iff the token is live, a version is chosen and every setting can be read; then the token is spent and only the new credential gets in; if it fails, and for every other token and gateway, nothing changes. |
| Enrolamiento.CanjeEntregaLaVersion | app/services/enrollment.py:155-176 | A successful exchange names the version and the checksum of their settings, and the package of that version under the base address without its trailing slashes. |
| Enrolamiento.CanjeEntregaElEntorno | app/services/enrollment.py:107-222 | The environment handed over names no variable twice; the one credential in it is the only text that gets in from then on; the uuid is the gateway's; and the other entries are exactly the settings of the table as a device reads them. |
| Enrolamiento.LosAjustesNoFrenanElCanje | app/services/platform_settings.py:118-145 | On a table that the settings service keeps, no exchange fails for a secret that cannot be read. |
| Enrolamiento.PasoSoloGasta | app/repositories/enrollment_token.py:26-41 | No request removes a token, revives a spent one or extends one. |
| Enrolamiento.UnSoloUso | app/services/enrollment.py:126-143 | In every run a token is exchanged at most once. |
| Enrolamiento.UnSoloVivo | app/services/enrollment.py:80-95 | In every run, from the last request on, a gateway has at most one live token. |
| Enrolamiento.CanjeVieneDeEmision | app/services/enrollment.py:66-143 | A successful exchange presents a token issued for that gateway less than eight hours before, with no later issue for it in between. |
| ConfigGateway.GatewayConfigService.Build | app/services/gateway_config.py:196-242 | The document is refused for another gateway's uuid or with the switch off, and otherwise holds the gateway's data and its devices in the order served. |
| ConfigGateway.ConstruirSii | app/services/gateway_config.py:196-242 | A document is handed over iff the uuid asked for is the gateway's and the switch is on or does not count; it holds the gateway's data and the devices in the order served. |
| ConfigGateway.GatewayConfigService.Acknowledge | app/services/gateway_config.py:267-297 | The acknowledgement, written in place, as `Reconocer` defines it. |
| ConfigGateway.GatewayConfigService.StatusForCrm | app/services/gateway_config.py:299-306 | The current fingerprint ignores the switch, and drift compares it with the one acknowledged. |
| ConfigGateway.VariablesSinOrden | app/services/gateway_config.py:328-343 | The order in which a device's variables are returned does not reach the document. |
| ConfigGateway.DeviceDiceLoGuardado | app/services/gateway_config.py:308-343 | A device section has one entry for each variable and no other, each with an address that reads back as the register, the letter of the type, the gain, the unit and the kind; what the row says of the device; and the connection fields of its own transport and no others, for a row the equipment service left exactly the row's. |
| ConfigGateway.DocumentoSinOrdenSii | app/services/gateway_config.py:222-242 | The document does not depend on the order the devices are returned in iff no two of them share a unit id. |
| ConfigGateway.UnAcusePorEncendido | app/services/gateway_config.py:267-297 | In every run accepted acknowledgements never exceed the times the download was turned on. |
| ConfigGateway.AcuseCierra | app/services/gateway_config.py:267-297 | It is accepted iff the switch is on and the version is the one served; then the switch is off, there is no drift, and a repetition is refused and changes nothing. |
| ConfigGateway.DerivaExacta | app/services/gateway_config.py:299-306 | With an injective fingerprint, drift holds iff the document to serve differs from the one last acknowledged. |
| ConfigGateway.FirmwareNuevoDeriva | app/services/gateway_config.py:230-233 | A heartbeat with another firmware version makes a gateway look out of date, with no edit. |
| Registros.IdaYVuelta | app/domain/firmware.py:34-59 | Reading a written address gives the register back, for every register in both notations, and only the hexadecimal form has the prefix the decimal reader rejects. |
| Registros.DireccionInyectiva | app/domain/firmware.py:34-43 | Two registers, or one in two notations, are never written the same way. |
| Registros.FormaDeLaDireccion | app/domain/firmware.py:34-43 | In hexadecimal, 0x and four digits in capitals, more only when four are not enough; in decimal, plain digits with no zero in front. |
| Registros.ParseAddressSii | app/domain/firmware.py:46-59 | Exactly which texts are read as an address and as which number: trimmed, a sign or none, 0x or none in hexadecimal, and digits that single underscores may separate; every other text is refused. |
| Equipos.NormalizeTransportFields | app/domain/modbus.py:37-75 | The loops over the field tables refuse a field of the other transport or a missing required one, and otherwise complete the dictionary. |
| Equipos.NormalizarDice | app/domain/modbus.py:12-75 | When normalising accepts, and what every field is after it, value by value. |
| Equipos.PuntoFijoSii | app/domain/modbus.py:14-28 | Exactly which dictionaries normalising leaves as they are. |
| Equipos.NormalizarEstabiliza | app/domain/modbus.py:37-75 | The result is a fixed point of the normalisation and satisfies the database's coherence check. |
| Equipos.EquipmentService.Create | app/services/hierarchy.py:235-241 | A create leaves the table and gives the answer that `Crear` defines. |
| Equipos.EquipmentService.Mezclar | app/services/hierarchy.py:255-275 | The patched row, with the old transport's fields cleared when the transport changes. |
| Equipos.EquipmentService.Update | app/services/hierarchy.py:243-293 | A patch leaves the table and gives the answer that `Actualizar` defines. |
| Equipos.EquipmentService.Delete | app/services/hierarchy.py:295-297 | A delete removes that row alone. |
| Equipos.CrearSii | app/services/hierarchy.py:235-241 | A create is accepted iff the caller may write, the gateway exists, the unit id is 1 to 247, the fields normalise and no device of the gateway on that transport has the unit id with the same serial port, or host and port; then it adds that row alone. |
| Equipos.ActualizarSii | app/services/hierarchy.py:243-293 | A patch of a device is accepted iff the caller may write, transport and unit id are not sent as null, a unit id sent is 1 to 247, the patched fields normalise and no other device has their address; then it rewrites that row alone, on the same gateway. |
| Equipos.ActualizarSinFila | app/services/hierarchy.py:252-253 | A patch of a device that is not there changes nothing, with the error of its case. |
| Equipos.BorrarSii | app/services/hierarchy.py:295-297 | A delete is accepted iff the caller may write and the device exists, and every other row stays. |
| Equipos.MezclaDice | app/services/hierarchy.py:255-275 | The patched fields before they are completed: what the patch sets, and of the rest nothing if the transport changes and what was there if not. |
| Equipos.ParcheVacio | app/repositories/hierarchy.py:137-138 | On a sound table a patch that sets nothing is accepted and changes nothing: a device does not collide with itself. |
| Equipos.PonerFila | app/repositories/hierarchy.py:110-139 | A row written at an address not taken leaves the table sound. |
| Equipos.SiempreSana | app/services/hierarchy.py:214-297 | After any sequence of creates, patches and deletes every row is a coherent fixed point and no two devices of a gateway share a bus address. |
| Equipos.CambioDeTransporteLimpia | app/services/hierarchy.py:270-275 | After a switch of transport each field is what the patch sets or the new transport's default, and nothing of the old one survives. |
| Equipos.ParcheConserva | app/services/hierarchy.py:269-293 | Without a switch, the fields a patch does not set stay as they were. |
| Ajustes.PlatformSettingService.Create | app/services/platform_settings.py:147-160 | A new setting is stored as its secrecy requires, or the table is untouched. |
| Ajustes.PlatformSettingService.Update | app/services/platform_settings.py:162-192 | An update rewrites the column when a value comes or when only the secrecy changes. |
| Ajustes.PlatformSettingService.Delete | app/services/platform_settings.py:194-198 | A delete removes that key alone, if it is edited from the panel. |
| Ajustes.RepresentaSeLee | app/services/platform_settings.py:87-145 | A row that stands for a text is read as that text by `reveal`, and by the device unless the device makes its own. |
| Ajustes.ElEntornoEsElMapa | app/services/platform_settings.py:118-145 | For a table that refines a plain map, what goes out to a device never fails to be read, and each variable carries the map's text, or none if the device makes its own. |
| Ajustes.PasoRefina | app/services/platform_settings.py:147-204 | A request is accepted iff a plain map of texts with the secrecy asked for says it may, with the box configured if it has to encrypt; accepted, it does to the table what it does to that map; refused, it changes nothing. |
| Ajustes.RevelaLoUltimoEscrito | app/services/platform_settings.py:87-204 | After any sequence of requests `reveal` gives the last text written for every key and never fails to decrypt; the column is ciphertext of it iff secrecy was last asked for and it is not empty; and `valor_publico` refuses exactly the keys for which secrecy was last asked. |
| Ajustes.ElEntornoDiceLoUltimoEscrito | app/services/platform_settings.py:118-204 | After any sequence of requests the whole table can be read for a device, and each variable goes out with the last text written for it, or none if the device makes its own. |
| Flota.ResumenEsElArbol | app/repositories/hierarchy.py:425-523 | A client's counts of sites, gateways, devices and variables are the sizes of the layers of its tree. |
| Flota.SumaEsLaTabla | app/repositories/hierarchy.py:449-484 | Added over all clients, the counts are the sizes of the tables. |
| Flota.UnaFilaPorClave | app/repositories/hierarchy.py:436-475 | A join along foreign keys returns one row for each row it starts from. |
| Flota.NivelCortaElArbol | app/services/fleet.py:201-263 | A tree cut at a level reports what lies below as absent, at every site, gateway and device. |
| Flota.EnLineaMasCaidos | app/repositories/hierarchy.py:525-535 | For one clock value the two filters agree row by row with the derived status, and a client's gateways are those online plus those listed as down. |

## Left out

- Unicode digits in versions, settings and addresses: only ASCII digits are read, so a version typed with other decimal digits is unreadable here.
- The catalogue as a class: publishing and retiring a release are steps on a value in `Corridas`, without the class form and without listing order, channel or publisher.
- Choosing a rollout's destination by client, site or list: it is given as gateways of the fleet, each once.
- The contact recorded when a device downloads its configuration: it touches no column the proofs are about.
- Concurrency between requests: each request is one atomic step, so what the database does with two at once is not captured.
- Length limits and numeric ranges of the request schemas, except the Modbus unit id and the states a device may report.
- Deleting gateways, sites and clients: the tables of tokens and rows only grow here, except equipment and settings.
- The collation by which settings are listed, and the names one may have: keys are listed in some order, each once.
- Unique device names and the CHECKs on single columns of the equipment table: they are settled by the database, one row at a time.
- Filters by client and text, paging and ordering of the fleet listings, and the latest contact in the summary: each is one clause of a query.
- MQTT notices, logging, authentication, roles, tariffs, measurements and users: they do not touch the rows modelled, or are settled by reading one branch.
- Two `datetime.now()` readings inside one request: a request has one instant.
- A limit on what a device does between requests: nothing says an update ever ends, because a silent device stays as it is by design.
- Servicio.Gateway.Restaurar: stands for the session's rollback of one object, which the source gets from the database.
