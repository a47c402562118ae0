# ITBN / CNN model validator: the session core

The validator in `common/itbn_cnn_model_validator.py` replays recorded sessions of a
robot-led interaction. Each session is a sequence of frames with a timing dictionary
(`<event>_s` and `<event>_e` frame numbers). Two CNN classifiers, one for audio and one
for video, label fixed-size windows of the sequence as silence (0), robot (1) or human (2).
Each window is scored in a 3x3 confusion matrix against its ground-truth class. The
combined predictions become two observations, robot and human, for an interval temporal
Bayesian network (ITBN). The first window with a robot observation confirms the start
event, command, without asking the network. After that, whenever the observations differ
from those saved at the last confirmation (`last_obs_robot`/`last_obs_human`, which only a
confirmation updates), a query round asks the network about each pending event (prompt,
response, abort, reward) and confirms those it predicts. The session ends when abort or reward is confirmed.

This project models:

- `IntervalRelations`: `calculate_relationship` and its two sign-tuple tables. The model
  proves both tables against Allen's interval relations.
- `WindowLabeler`: `overlaps`, `label_data_aud` and `label_data_opt` (the one-hot
  ground-truth label of a window), and the `np.argmax` that reads the class back.
- `EventInference`: the values of the session table and the pieces of a query round.
  These are the observation columns, the relation dictionary `window_rels`, the query
  loop, the commit loop and the pending list.
- `FrameLoop`: one session's frame loop. It advances the two window schedules, scores
  each completed window into the shared confusion matrices, bootstraps the start event
  and runs query rounds. It stops when the sequence ends or a terminal event is confirmed.

The classifiers, the network's `predict` and its `relation_map` are parameters: a
classifier is a function from a window number and its true class to a class, and
`predict` is a predicate on a query row and an event. The confusion matrices are
`array2<nat>` objects updated in place. The session table (a one-row pandas DataFrame)
is the `Row` datatype: a flag per event, an observation per event, and a relation
number per tracked pair.

## Model

| member | source | states |
|---|---|---|
| IntervalRelations.WindowRelation | common/itbn_cnn_model_validator.py:78-84 | reduced mode returns "" exactly for an untabled sign tuple, and a label exactly when the intervals properly overlap (bStart < aEnd and aStart < bEnd) |
| IntervalRelations.EventRelation | common/itbn_cnn_model_validator.py:78-84 | extended mode returns a number in 0..13, and 0 exactly for an untabled sign tuple |
| IntervalRelations.EventRelationIsAllen | common/itbn_cnn_model_validator.py:59-84 | for proper intervals, an Allen relation holds (by its endpoint definition) iff the extended table returns its number |
| IntervalRelations.ProperIntervalsAlwaysRelated | common/itbn_cnn_model_validator.py:59-84 | for proper intervals the extended table never gives the sentinel 0 |
| IntervalRelations.ReducedAgreesWithExtended | common/itbn_cnn_model_validator.py:48-84 | the reduced table holds exactly the tuples numbered 5..13 in the extended table, under the matching label |
| IntervalRelations.EventRelationSwap | common/itbn_cnn_model_validator.py:59-84 | swapping the intervals gives the Allen inverse number, for all integers |
| IntervalRelations.WindowRelationSwap | common/itbn_cnn_model_validator.py:48-84 | swapping the intervals gives the inverse label, for all integers |
| IntervalRelations.SwappedSigns | common/itbn_cnn_model_validator.py:79-80 | swapping the intervals negates the first two signs and swaps and negates the last two |
| WindowLabeler.Overlaps | common/itbn_cnn_model_validator.py:88-94 | true iff the event has a start time, the event starts before the window ends and ends after the window starts |
| WindowLabeler.LabelDataAud | common/itbn_cnn_model_validator.py:98-126 | returns a fresh 1x3 one-hot array whose class is the audio ground truth of the clipped window: 2 if audio_0/audio_1 overlap, else 1 if a robot event overlaps, else 0 |
| WindowLabeler.LabelDataOpt | common/itbn_cnn_model_validator.py:130-154 | the same for video, with gesture_0/gesture_1 as the human events |
| WindowLabeler.AudClassByNames | common/itbn_cnn_model_validator.py:108-123 | the audio ground-truth class is the last overlap check that fires, spelt out event by event |
| WindowLabeler.OptClassByNames | common/itbn_cnn_model_validator.py:140-151 | the same for video |
| WindowLabeler.OneHotLabel | common/itbn_cnn_model_validator.py:99-125 | a fresh BATCH_SIZE x classes array of zeros with a 1 at row 0, column c |
| WindowLabeler.ArgMax | common/itbn_cnn_model_validator.py:304 | returns the first column holding the row's largest value |
| WindowLabeler.ArgMaxOfOneHot | common/itbn_cnn_model_validator.py:304 | argmax of a one-hot label recovers its class |
| EventInference.InitialRowWellFormed | common/itbn_cnn_model_validator.py:269-277 | the initial table has every flag 'N', every observation 0 and every relation column 0 |
| EventInference.ColumnsLayout | common/itbn_cnn_model_validator.py:273-277 | the table's columns are five flags, then five observations in event order, then five relations |
| EventInference.EventInPairKey | common/itbn_cnn_model_validator.py:376-377 | `event in events` on a pair key holds iff the event is one of the pair |
| EventInference.CountAllIsLength | common/itbn_cnn_model_validator.py:306 | the nine cell counts of a window log add up to its length |
| EventInference.MatrixTotalCounts | common/itbn_cnn_model_validator.py:306 | a matrix that matches a log holds one more count per logged window than its snapshot |
| EventInference.PairRelation | common/itbn_cnn_model_validator.py:350-357 | a recorded relation is the extended relation when the relation map knows it and 0 when it does not; an unconfirmed first event is measured from the far-future placeholder |
| EventInference.Confirmed | common/itbn_cnn_model_validator.py:358-372 | an event is confirmed in a round iff it is pending and the model predicts 'Y' for it on the same window row |
| EventInference.ConfirmedStep | common/itbn_cnn_model_validator.py:359-369 | querying the next pending event appends it exactly on a 'Y' |
| EventInference.RecordTimesPointwise | common/itbn_cnn_model_validator.py:368-370 | after a round, event_times holds exactly the old entries and the confirmed events, each confirmed one at the current window |
| EventInference.RecordOneMore | common/itbn_cnn_model_validator.py:370 | recording one more confirmed event is one dictionary assignment |
| EventInference.RemoveFirst | common/itbn_cnn_model_validator.py:375 | list.remove shortens the list by one and adds nothing |
| EventInference.RemoveFirstKeepsOrder | common/itbn_cnn_model_validator.py:375 | removing from a list in table order removes exactly that event and keeps the order |
| EventInference.EventsInTableOrder | common/itbn_cnn_model_validator.py:279 | the initial pending list holds every event, in table order |
| EventInference.ConfirmedKeepsOrder | common/itbn_cnn_model_validator.py:358-372 | a round confirms events in pending-list order |
| EventInference.TableOrderNoDuplicates | common/itbn_cnn_model_validator.py:279 | a list in table order holds no event twice |
| EventInference.ObsRobot | common/itbn_cnn_model_validator.py:329-333 | the robot observation is 1 iff either modality's latest selected class is robot (1), and 0 otherwise |
| EventInference.ObsHuman | common/itbn_cnn_model_validator.py:329-335 | the human observation is 1 iff either modality's latest selected class is human (2), and 0 otherwise |
| EventInference.PrepareWindow | common/itbn_cnn_model_validator.py:344-357 | the column loop yields the window row with every observation column overwritten, and window_rels in column order |
| EventInference.FillColumn | common/itbn_cnn_model_validator.py:346-357 | one column of the loop fills an observation column or records one pair's relation |
| EventInference.BuildQuery | common/itbn_cnn_model_validator.py:360-365 | the query row is the window row without the event's flag; `events in events` never holds, so no relation is overlaid |
| EventInference.WriteRelations | common/itbn_cnn_model_validator.py:376-379 | writes window_rels into exactly the relation columns of pairs containing the event |
| EventInference.WrittenStep | common/itbn_cnn_model_validator.py:376-379 | one more item of window_rels changes at most its own pair's column |
| FrameLoop.InitialEventState | common/itbn_cnn_model_validator.py:267-289 | a session starts consistent: the initial row, every event pending, nothing confirmed |
| FrameLoop.StartPendingMeansNothingConfirmed | common/itbn_cnn_model_validator.py:336-343 | while command is pending nothing is confirmed and terminate is false, and conversely |
| FrameLoop.BootstrapKeepsEventState | common/itbn_cnn_model_validator.py:336-341 | confirming command without a query keeps the state consistent, with command the only confirmed event |
| FrameLoop.RoundKeepsEventState | common/itbn_cnn_model_validator.py:358-381 | a committed round keeps the row, the pending list, the confirmation order and terminate consistent with event_times |
| FrameLoop.RoundRow | common/itbn_cnn_model_validator.py:373-379 | after a round the row's flags are exactly the confirmed events, and relation columns of two unconfirmed events stay 0 |
| FrameLoop.RoundOrder | common/itbn_cnn_model_validator.py:368-370 | appending a round's events to the confirmation order keeps it duplicate-free and ordered by window end |
| FrameLoop.CommitOne | common/itbn_cnn_model_validator.py:373-379 | flagging an event and writing its relation columns extends the committed row by that event |
| FrameLoop.CommittedNothing | common/itbn_cnn_model_validator.py:373 | a round that confirms nothing leaves the row unchanged |
| FrameLoop.TerminalConfirmed | common/itbn_cnn_model_validator.py:380-381 | a terminal event is among the confirmed iff abort or reward is |
| FrameLoop.WindowRelsTracked | common/itbn_cnn_model_validator.py:350-357 | every pair in window_rels is a relation column of the session row |
| FrameLoop.QueryPending | common/itbn_cnn_model_validator.py:358-372 | the query loop returns the confirmed events of the round, records them at the window, and updates the last observations iff something was confirmed |
| FrameLoop.QueryEvent | common/itbn_cnn_model_validator.py:359-372 | one query extends the confirmed list and event_times by the event exactly on a 'Y' |
| FrameLoop.CommitRound | common/itbn_cnn_model_validator.py:373-381 | the commit loop yields the committed row, removes exactly the confirmed events keeping table order, and sets terminate iff a terminal event is confirmed |
| FrameLoop.CommitEvent | common/itbn_cnn_model_validator.py:374-381 | one commit flags the event, removes it from the pending list, writes its relation columns and sets terminate for abort or reward |
| FrameLoop.QueryRound | common/itbn_cnn_model_validator.py:344-381 | a query round confirms exactly the predicted pending events, records them at the window, commits them to the row, and keeps the event state consistent |
| FrameLoop.UpdateStatus | common/itbn_cnn_model_validator.py:328-381 | a processed frame bootstraps command on the first robot observation, after that runs a round when the observations differ from those saved at the last confirmation (only a confirmation updates them), and otherwise changes nothing; consistency is kept and terminate implies a terminal event confirmed at this window |
| FrameLoop.RoundWithin | common/itbn_cnn_model_validator.py:368-370 | a round's events are recorded at its window and no confirmation ends after it |
| FrameLoop.CompletedNext | common/itbn_cnn_model_validator.py:290-310 | a window schedule advances by one window exactly at the frame where the next window ends |
| FrameLoop.NothingCounted | common/itbn_cnn_model_validator.py:233-234 | a matrix matches its own snapshot with an empty log |
| FrameLoop.AudioWindow | common/itbn_cnn_model_validator.py:292-309 | scores the next audio window: its (true, selected) cell gains one, the counter advances, and the window becomes current |
| FrameLoop.VideoWindow | common/itbn_cnn_model_validator.py:310-327 | the same for the next video window |
| FrameLoop.AudioStep | common/itbn_cnn_model_validator.py:292-309 | audio windows scored up to frame i stay exactly those ending before the frame after it |
| FrameLoop.VideoStep | common/itbn_cnn_model_validator.py:310-327 | the same for video windows |
| FrameLoop.ScoreFrame | common/itbn_cnn_model_validator.py:290-327 | scores the audio and then the video window ending at frame i; each fired window advances its counter and selects its classifier's class, the video one wins as current window, and the frame is processed iff either fired |
| FrameLoop.Frame | common/itbn_cnn_model_validator.py:290-381 | one frame is one FrameStep: on a processed frame the status is updated (bootstrap, query round or nothing) with the observations combined from the latest selected classes at the current window, and on any other frame it is unchanged; both scoring invariants and the status consistency are kept, and terminate implies a terminal event confirmed at this frame |
| FrameLoop.StepsAppend | common/itbn_cnn_model_validator.py:290-381 | the frame steps recorded in a run are kept when entries are appended to it |
| FrameLoop.TraceExtend | common/itbn_cnn_model_validator.py:290-381 | a run of n frames followed by a FrameStep for frame n is a run of n + 1 frames |
| FrameLoop.ReachesNext | common/itbn_cnn_model_validator.py:290-381 | one FrameStep from a reached state reaches the next state, recording the old one |
| FrameLoop.ReachesTrace | common/itbn_cnn_model_validator.py:290-381 | the states recorded before each frame followed by the reached state form a run from the initial status |
| FrameLoop.TracedFrame | common/itbn_cnn_model_validator.py:290-381 | frame i extends the recorded run by one FrameStep and keeps the scoring and status invariants; terminate implies abort or reward confirmed at a window ending at frame i |
| FrameLoop.RunFrames | common/itbn_cnn_model_validator.py:290-383 | the loop runs frames in order until the sequence ends or a frame sets terminate, which then is abort or reward confirmed at the last frame run; every frame was run from an unterminated status, and the state reached is the end of a run of FrameSteps |
| FrameLoop.RunSession | common/itbn_cnn_model_validator.py:257-383 | the final status is the last of a run of FrameSteps from the initial status, one per frame run, and every status before it is unterminated, so the session stops at the first frame where abort or reward is confirmed and no later window is scored; otherwise it runs to the end of the sequence; every completed window is scored once, in order, into its own matrix cell, and nothing else changes in the matrices |

## Left out

- Reading the TFRecord files, the file-name bookkeeping, the outer loop over sessions and the TensorFlow sessions are I/O; a session's length, timing dictionary and classifier outputs are inputs of `RunSession`.
- The CNN classifiers, `itbn_model.predict` and `itbn_model.relation_map` are code outside this file; they are function parameters.
- Loading the network and setting its relation map up from the pickled model are not part of this model; `temporal_node_marker` is fixed as the `tm_` prefix of the relation columns.
- `parse_timing_dict` and `print_real_times` are not part of this model; the timing dictionary is a `map<string, int>` already parsed.
- Every `print` is left out.
- The label arrays use `real` instead of float; `np.sign` is modelled exactly on integer frame numbers.
- `aud_num_chunks` and `opt_num_chunks` are computed by the source and never used, so they are left out.
- The raw audio and video slices fed to the classifiers are not modelled; a classifier sees only the window number and its true class.
- FrameLoop.RunSession: it checks `terminate` after every frame, not only after a query round; the two agree because terminate changes only in a query round.
- FrameLoop.RunSession: the pandas table is the `Row` datatype with 'Y'/'N' as booleans; the column order is kept as a separate constant.
- FrameLoop.RunSession: a missing `<event>_e` for an event whose `<event>_s` is present raises KeyError in the source; the model requires the timing dictionary to be complete instead (`TimingOk`).
