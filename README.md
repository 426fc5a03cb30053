# Radar identification desktop shell: widget state logic in Dafny

This project models the state logic inside the desktop shell of the radar
signal identification tool. It covers:

- the "smart exchange" among the sibling index selectors of an options-group setting card;
- the value state of the dual-handle range slider and of the step-aligned slider, both of which use the same step alignment;
- the geometry, anchors and wheel handling of the horizontal four-view scroll container;
- the responsive dimension helpers;
- the placement of the settings and parameter-page title labels, and the yes/no caption of the parameter switches;
- the state machine of the time-flip setting card;
- the life cycle of the log manager and of its module-level global.

Objects whose fields the source updates in place are classes with
`modifies` clauses. The pure helpers are functions. Each handler is
modelled as one atomic update. A configuration item is modelled by its
value, and a write to it goes straight to the widget that shows it.
Emitted signals are modelled only where they carry meaning (the range
slider), as an appended list.

Where the options group's own docstrings promise more than its code
does, the model follows the code:

- The widget's class docstring (options_group_setting_card.py:12-14) also promises to clear the selector holding a value when the clicking selector had none. `_onOptionChanged` (lines 178-202) has no such branch: the conflicting selector always receives the clicker's previous value.
- The card's docstring (line 136) promises that no two selectors hold the same number. The code keeps this only when the values start out distinct (`OptionsGroups.ClickPreservesDistinct`).
- The occupied-value set is filled at construction (lines 173-176) and never updated.

## Model

| member | source | states |
|---|---|---|
| StepAlignment.Clamp | RadarIdentifySystem_Refactoring/views/base/range_slider.py:378 | the result lies in `[lo, hi]` and is the input itself when the input already does |
| StepAlignment.Align | RadarIdentifySystem_Refactoring/views/base/range_slider.py:368-378 | identity for a step of at most 1; otherwise the result lies in `[minimum, maximum]` |
| StepAlignment.RoundIsNearest | RadarIdentifySystem_Refactoring/views/base/range_slider.py:374 | `RoundHalfEven`, the model of Python's `round(offset / step)`: the integer rounding of `offset / step` is within half a step of the quotient, no integer is nearer, and an exact half goes to the even neighbour (Python's `round`) |
| StepAlignment.DivExact | RadarIdentifySystem_Refactoring/views/base/range_slider.py:374 | an exact multiple divides back to its factor with remainder 0 |
| StepAlignment.RoundMonotone | RadarIdentifySystem_Refactoring/views/base/range_slider.py:374 | rounding the quotient is monotone in the numerator |
| StepAlignment.AlignMonotone | RadarIdentifySystem_Refactoring/views/base/range_slider.py:368-378 | alignment is monotone, so two ordered values stay ordered |
| StepAlignment.AlignOnGrid | RadarIdentifySystem_Refactoring/views/base/step_slider.py:102-112 | for a step above 1 the aligned value is the maximum or lies on the grid `minimum + k * step` |
| StepAlignment.AlignIdempotent | RadarIdentifySystem_Refactoring/views/base/step_slider.py:102-112 | aligning a value inside the range twice gives the same result as aligning it once |
| StepAlignment.AlignNotIdempotentOutside | RadarIdentifySystem_Refactoring/views/components/range_slider.py:368-378 | outside the range alignment is not idempotent: on `[0, 10]` with step 4, 13 aligns to 10 but 10 aligns to 8 |
| RangeSliders.RangeSlider.constructor | RadarIdentifySystem_Refactoring/views/base/range_slider.py:145-149 | initial range 0..100, handles at 20 and 80, step 1, no drag, ordering invariant holds |
| RangeSliders.RangeSlider.AlignToStep | RadarIdentifySystem_Refactoring/views/base/range_slider.py:354-378 | identity for step 1; within the range for a larger step |
| RangeSliders.RangeSlider.Normalize | RadarIdentifySystem_Refactoring/views/base/range_slider.py:235-237 | the clamp-then-align that the setters apply: within the range, equal to `ClampAlign` |
| RangeSliders.RangeSlider.SetRange | RadarIdentifySystem_Refactoring/views/base/range_slider.py:198-224 | an empty or reversed range changes nothing; otherwise the new bounds are stored, both values are clamped into them, and the ordering invariant is kept; no signal |
| RangeSliders.RangeSlider.SetMinValue | RadarIdentifySystem_Refactoring/views/base/range_slider.py:226-247 | new min = clamped, aligned request capped at the max handle; max unchanged; `minValueChanged` then `rangeChanged` exactly when the value changed |
| RangeSliders.RangeSlider.SetMaxValue | RadarIdentifySystem_Refactoring/views/base/range_slider.py:249-270 | new max = clamped, aligned request raised to the min handle; min unchanged; signals only on change |
| RangeSliders.RangeSlider.SetValues | RadarIdentifySystem_Refactoring/views/base/range_slider.py:272-307 | both requests clamped and aligned, swapped if reversed; each moved handle signals, `rangeChanged` is emitted at most once |
| RangeSliders.RangeSlider.SetStep | RadarIdentifySystem_Refactoring/views/base/range_slider.py:333-352 | a non-positive step changes nothing; otherwise both values are realigned to the new step, the order is kept, and `rangeChanged` is always emitted |
| RangeSliders.RangeSlider.PosToValue | RadarIdentifySystem_Refactoring/views/base/range_slider.py:422-426 | the value a position maps to is the clamp-then-align of the raw value (`ClampAlign`), so it lies in the range |
| RangeSliders.RangeSlider.OnMinHandlePressed | RadarIdentifySystem_Refactoring/views/base/range_slider.py:449-452 | the min handle is dragged and `sliderPressed` is emitted |
| RangeSliders.RangeSlider.OnMaxHandlePressed | RadarIdentifySystem_Refactoring/views/base/range_slider.py:454-457 | the max handle is dragged and `sliderPressed` is emitted |
| RangeSliders.RangeSlider.OnHandleReleased | RadarIdentifySystem_Refactoring/views/base/range_slider.py:459-462 | no handle is dragged and `sliderReleased` is emitted |
| RangeSliders.RangeSlider.MousePress | RadarIdentifySystem_Refactoring/views/base/range_slider.py:464-489 | non-left buttons change nothing; a hit handle starts a drag from its value and emits `sliderPressed`; a groove click moves the nearer handle (the min handle on ties) to the clicked value, with exactly the signals its setter emits, and leaves the drag state alone |
| RangeSliders.RangeSlider.MouseMove | RadarIdentifySystem_Refactoring/views/base/range_slider.py:491-501 | nothing happens without a drag; otherwise the dragged handle moves to the converted value, with exactly the signals its setter emits |
| RangeSliders.RangeSlider.MouseRelease | RadarIdentifySystem_Refactoring/views/base/range_slider.py:503-506 | the drag ends; `sliderReleased` is emitted only if a handle was dragged |
| RangeSliders.ClampAlign | RadarIdentifySystem_Refactoring/views/components/range_slider.py:235-237 | clamp then align lies in the range and is the identity on in-range values for step 1 |
| RangeSliders.ClampAlignIdempotent | RadarIdentifySystem_Refactoring/views/components/range_slider.py:482-501 | the groove and drag handlers align twice (position conversion, then setter); the second pass changes nothing |
| RangeSliders.RealignKeepsOrder | RadarIdentifySystem_Refactoring/views/components/range_slider.py:342-348 | realigning two ordered in-range handle values keeps them ordered and in range |
| StepSliders.StepSlider.constructor | RadarIdentifySystem_Refactoring/views/base/step_slider.py:31-56 | the step starts at 1, so construction-time alignment leaves the value unchanged |
| StepSliders.StepSlider.AlignToStep | RadarIdentifySystem_Refactoring/views/base/step_slider.py:88-112 | identity for step 1; within the range for a larger step |
| StepSliders.StepSlider.SetValue | RadarIdentifySystem_Refactoring/views/base/step_slider.py:134-144 | the stored value is the aligned request (clamped by the base slider), never the raw one |
| StepSliders.StepSlider.SetStep | RadarIdentifySystem_Refactoring/views/base/step_slider.py:69-86 | a non-positive step changes nothing; otherwise the step is stored and the value becomes its alignment to the new step |
| StepSliders.StepSlider.PosToValue | RadarIdentifySystem_Refactoring/views/base/step_slider.py:114-132 | the raw value is returned as its alignment `Align(raw, …)`: on the grid or at the maximum for a step above 1, itself for step 1 |
| StepSliders.SetValueLandsOnGrid | RadarIdentifySystem_Refactoring/views/base/step_slider.py:143-144 | whatever is requested, the shown value is in range and on the step grid or at the maximum |
| OptionsGroups.FirstConflictFrom | RadarIdentifySystem_Refactoring/views/components/options_group_setting_card.py:193-197 | the first slot at or after the start, other than the source, holding the value; `None` exactly when there is none |
| OptionsGroups.ConflictIgnoresSource | RadarIdentifySystem_Refactoring/views/components/options_group_setting_card.py:195 | the conflict scan does not depend on what the source slot holds |
| OptionsGroups.ClickIsTransposition | RadarIdentifySystem_Refactoring/views/components/options_group_setting_card.py:106-112 | a click with a conflict swaps the clicked slot and the first conflicting one, keeping the multiset of values; without a conflict only the clicked slot changes and no other slot holds the new value |
| OptionsGroups.ClickPreservesDistinct | RadarIdentifySystem_Refactoring/views/components/options_group_setting_card.py:193-202 | pairwise-distinct values stay pairwise distinct after any click |
| OptionsGroups.ExchangeSparesSource | RadarIdentifySystem_Refactoring/views/components/options_group_setting_card.py:193-202 | the exchange never writes the source slot, nor any slot not holding the new value |
| OptionsGroups.ClickExamples | RadarIdentifySystem_Refactoring/tests/test_options_group_mutual_exclusion.py:79-91 | with values 0, 1, 2: the first taking 1 swaps with the second; the first taking a free value moves alone |
| OptionsGroups.OptionsGroupWidget.constructor | RadarIdentifySystem_Refactoring/views/components/options_group_setting_card.py:67-73 | one button per option of `range(lo, hi)`, in order, and the stored value is shown |
| OptionsGroups.OptionsGroupWidget.SetValue | RadarIdentifySystem_Refactoring/views/components/options_group_setting_card.py:116-130 | exactly the buttons whose option equals the value are checked |
| OptionsGroups.OptionsGroupWidget.OnButtonClicked | RadarIdentifySystem_Refactoring/views/components/options_group_setting_card.py:90-114 | a click on the current value changes nothing and notifies nobody; otherwise the value becomes the option and the parent is told (new, previous) |
| OptionsGroups.OptionsGroupSettingCard.constructor | RadarIdentifySystem_Refactoring/views/components/options_group_setting_card.py:158-176 | the occupied set is exactly the non-negative initial values |
| OptionsGroups.OptionsGroupSettingCard.OnOptionChanged | RadarIdentifySystem_Refactoring/views/components/options_group_setting_card.py:178-202 | the values become `Exchanged`: the first other widget holding the new value receives the old one; no other widget, no widget's options and not the occupied set change |
| OptionsGroups.OptionsGroupSettingCard.Click | RadarIdentifySystem_Refactoring/views/components/options_group_setting_card.py:90-114 | a click on widget i, button k leaves the values at `Clicked`, keeps every widget's options and the occupied set, and keeps distinct values distinct |
| ScrollContainers.AnchorsIncreasing | RadarIdentifySystem_Refactoring/views/modules/scroll_module/scroll_container.py:138-155 | three anchors, starting at 0, at least the layout gap apart; for wide enough views no position is near two anchors |
| ScrollContainers.ScrollContainer.constructor | RadarIdentifySystem_Refactoring/views/modules/scroll_module/scroll_container.py:18-43 | scrolling starts disabled, no anchors, no views, position 0 |
| ScrollContainers.ScrollContainer.AddWidgets | RadarIdentifySystem_Refactoring/views/modules/scroll_module/scroll_container.py:78-104 | with the four views present the sizes and the anchors are recomputed; scrolling state, animation and pending snap are unchanged |
| ScrollContainers.ScrollContainer.Resize | RadarIdentifySystem_Refactoring/views/modules/scroll_module/scroll_container.py:326-333 | a resize with the views present recomputes sizes and anchors; without them sizes, content width and anchors stay; scrolling state, animation and pending snap are unchanged |
| ScrollContainers.ScrollContainer.UpdateWidgetSizes | RadarIdentifySystem_Refactoring/views/modules/scroll_module/scroll_container.py:113-136 | with all four views, each is `(width - 30) // 4` wide, the content is four units plus 30, and the anchors are recomputed; otherwise nothing changes |
| ScrollContainers.ScrollContainer.UpdateAnchorPoints | RadarIdentifySystem_Refactoring/views/modules/scroll_module/scroll_container.py:138-155 | the anchors are cleared, then are `[0, w + 10, w + 10 + w + 10]` with all views present, empty otherwise |
| ScrollContainers.ScrollContainer.FindNearestAnchor | RadarIdentifySystem_Refactoring/views/modules/scroll_module/scroll_container.py:157-178 | `None` exactly when no anchor is strictly within 50; otherwise the `NearestAnchor`: within 50, the closest, the earliest on ties |
| ScrollContainers.NearestAnchorUnique | RadarIdentifySystem_Refactoring/views/modules/scroll_module/scroll_container.py:172-176 | the strict comparison makes the choice unique: two anchors that are both the nearest by `NearestAnchor` are the same anchor |
| ScrollContainers.ScrollContainer.GetCurrentViewIndex | RadarIdentifySystem_Refactoring/views/modules/scroll_module/scroll_container.py:247-268 | 0 while disabled or without anchors; otherwise the index of the closest anchor, the earliest on ties |
| ScrollContainers.ScrollContainer.EnableScroll | RadarIdentifySystem_Refactoring/views/modules/scroll_module/scroll_container.py:197-210 | stores the flag; disabling puts the position back at 0 |
| ScrollContainers.ScrollContainer.ScrollToPosition | RadarIdentifySystem_Refactoring/views/modules/scroll_module/scroll_container.py:212-232 | ignored while disabled; otherwise the animation targets the position |
| ScrollContainers.ScrollContainer.ScrollToView | RadarIdentifySystem_Refactoring/views/modules/scroll_module/scroll_container.py:234-245 | ignored while disabled or for an index outside the anchors; otherwise targets that anchor |
| ScrollContainers.ScrollContainer.WheelEvent | RadarIdentifySystem_Refactoring/views/modules/scroll_module/scroll_container.py:270-306 | ignored while disabled; otherwise the animation stops, a positive delta gives `max(0, pos - 90)`, any other `min(max, pos + 90)`, a snap is scheduled, and the position stays in `[0, max]` |
| ScrollContainers.ScrollContainer.CheckAndSnapToAnchor | RadarIdentifySystem_Refactoring/views/modules/scroll_module/scroll_container.py:157-178 | the pending snap is cleared; when some anchor is within 50 the animation targets the `NearestAnchor`, otherwise it is left alone |
| ScrollContainers.ScrollContainer.SetScrollMaximum | RadarIdentifySystem_Refactoring/views/modules/scroll_module/scroll_container.py:130-133 | the scroll bar's range update clamps the position into the new range |
| UIDimensions.RightPanelWidth | RadarIdentifySystem_Refactoring/models/ui/dimensions.py:62-82 | an error exactly when total ≤ padding; otherwise the largest width ≤ 600 whose triple fits in what the padding leaves |
| UIDimensions.RightPanelWidthMonotone | RadarIdentifySystem_Refactoring/models/ui/dimensions.py:80-82 | a wider total never gives a narrower panel |
| UIDimensions.RightPanelWidthExamples | RadarIdentifySystem_Refactoring/tests/test_ui_dimensions.py:41-60 | 1200/40 gives 386, 41/40 gives 0, 40/40 and 30/40 are errors, 4000/40 gives the 600 cap |
| UIDimensions.ResponsivePadding | RadarIdentifySystem_Refactoring/models/ui/dimensions.py:84-99 | 5 exactly below 600, 10 exactly on `[600, 1000)`, 20 exactly from 1000 up |
| UIDimensions.ResponsiveSpacing | RadarIdentifySystem_Refactoring/models/ui/dimensions.py:101-116 | 5, 10, 15 on the same three bands, each band exactly |
| UIDimensions.ResponsiveMonotone | RadarIdentifySystem_Refactoring/models/ui/dimensions.py:94-116 | both helpers are non-decreasing in the container width |
| UIDimensions.ResponsiveExamples | RadarIdentifySystem_Refactoring/tests/test_ui_dimensions.py:62-102 | the values the tests expect at 500, 600, 800, 1000, 1200 |
| LabelPlacement.LabelPosition | RadarIdentifySystem_Refactoring/views/interfaces/settings_interface.py:162-179 | y is 30; x is at least 36, is 36 for widths up to 1200, and `(w - 1200) // 2 + 36` above; a non-positive width counts as 1200 |
| LabelPlacement.LabelPositionMonotone | RadarIdentifySystem_Refactoring/views/interfaces/params_config_interface.py:136-153 | a wider page never moves the label left, and y never changes |
| LabelPlacement.LabelPositionExamples | RadarIdentifySystem_Refactoring/tests/test_settings_interface_label_positioning.py:56-140 | the positions the tests expect for 800, 1200, 1600, 2000, 1700, 200, and that 1000 and 1500 differ |
| LabelPlacement.Caption | RadarIdentifySystem_Refactoring/views/interfaces/params_config_interface.py:163-164 | "是" exactly when checked, "否" exactly when not |
| LabelPlacement.SwitchButton.constructor | RadarIdentifySystem_Refactoring/views/interfaces/params_config_interface.py:155-164 | the caption matches the initial state |
| LabelPlacement.SwitchButton.SetChecked | RadarIdentifySystem_Refactoring/views/interfaces/params_config_interface.py:165-167 | after each toggle the caption matches the new state |
| TimeFlip.InitialComboIndex | RadarIdentifySystem_Refactoring/views/components/time_flip_setting_card.py:53-57 | the construction-time lookup of the stored strategy: found exactly for the two choices, failing for anything else |
| TimeFlip.RestoredComboIndex | RadarIdentifySystem_Refactoring/views/components/time_flip_setting_card.py:57-64 | agrees with the lookup on the two choices and falls back to the first item otherwise |
| TimeFlip.TimeFlipSettingCard.constructor | RadarIdentifySystem_Refactoring/views/components/time_flip_setting_card.py:50-73 | construction with the corrected lookup `RestoredComboIndex` (see the line-57 finding): a stored strategy is shown in the combo box and remembered whatever the processing value; a stored value that is not a strategy leaves the first item shown, remembered only once reserve takes it; the stored processing value is applied; the remembered strategy is never "none" |
| TimeFlip.TimeFlipSettingCard.SetProcValue | RadarIdentifySystem_Refactoring/views/components/time_flip_setting_card.py:143-176 | discard checks discard, disables the combo box and writes "none"; reserve enables it and restores the remembered strategy, or takes and remembers the current item; any other value changes only the processing item; the remembered strategy is never "none" |
| TimeFlip.TimeFlipSettingCard.OnCurrentIndexChanged | RadarIdentifySystem_Refactoring/views/components/time_flip_setting_card.py:178-193 | the selected item's option becomes the reserve value and the remembered strategy; the remembered strategy is never "none" |
| TimeFlip.TimeFlipSettingCard.SetReserveValue | RadarIdentifySystem_Refactoring/views/components/time_flip_setting_card.py:195-200 | a value outside the two choices ("none" included) is ignored; otherwise the combo box shows it and the reserve item takes it |
| TimeFlip.TimeFlipSettingCard.OnRadioButtonToggled | RadarIdentifySystem_Refactoring/views/components/time_flip_setting_card.py:125-141 | an un-check is ignored; a check writes the button's option to the processing item |
| TimeFlip.DiscardThenReserve | RadarIdentifySystem_Refactoring/views/components/time_flip_setting_card.py:152-168 | discard followed by reserve gives back the remembered strategy, never "none" |
| TimeFlip.ReserveAfterStoredDiscard | RadarIdentifySystem_Refactoring/views/components/time_flip_setting_card.py:61-68 | a card built over discard and a stored strategy shows "none" as the reserve value, and a switch to reserve restores the stored strategy |
| TimeFlip.ReopenAfterDiscard | RadarIdentifySystem_Refactoring/views/components/time_flip_setting_card.py:57 | after discard the reserve item holds "none", and the construction-time lookup fails for it |
| TimeFlip.ReopenAfterDiscardCorrected | RadarIdentifySystem_Refactoring/views/components/time_flip_setting_card.py:62-64 | with the corrected construction the same values are accepted and a later reserve takes the first item |
| Logging.UpperChar | RadarIdentifySystem_Refactoring/models/utils/log_manager.py:70 | lower-case ASCII letters move to upper case, everything else is kept |
| Logging.Upper | RadarIdentifySystem_Refactoring/models/utils/log_manager.py:70 | upper-casing is character by character and keeps the length |
| Logging.UpperIdempotent | RadarIdentifySystem_Refactoring/models/utils/log_manager.py:73 | upper-casing twice is upper-casing once |
| Logging.ValidLevelsAreUpper | RadarIdentifySystem_Refactoring/models/utils/log_manager.py:69 | the five level names are their own upper case |
| Logging.ValidLevelIgnoresCase | RadarIdentifySystem_Refactoring/models/utils/log_manager.py:69-73 | a name is accepted exactly when its upper case is, and the stored upper case is a level name |
| Logging.LevelExamples | RadarIdentifySystem_Refactoring/tests/test_models/test_log_manager.py:117-129 | "INVALID_LEVEL" is refused as the test expects, as are "WARN" and ""; the level names are accepted in any case ("debug", "Warning", "CRITICAL") |
| Logging.DefaultLevelIsValid | RadarIdentifySystem_Refactoring/models/utils/log_manager.py:51 | the default level "INFO" is accepted |
| Logging.Parent | RadarIdentifySystem_Refactoring/models/utils/log_manager.py:118 | the directory of a path: the path minus its last component; `.` for a bare file name |
| Logging.LogFilePath | RadarIdentifySystem_Refactoring/models/utils/log_manager.py:97-104 | the given file, or `logs/app.log` under the project root |
| Logging.ErrorLogPath | RadarIdentifySystem_Refactoring/models/utils/log_manager.py:118 | the error log is `error.log` in the log file's directory |
| Logging.LogManager.constructor | RadarIdentifySystem_Refactoring/models/utils/log_manager.py:44-52 | a fresh manager is not set up, at "INFO", with no log file |
| Logging.LogManager.Setup | RadarIdentifySystem_Refactoring/models/utils/log_manager.py:54-130 | skipped without change once set up; an invalid level raises with nothing changed; otherwise the upper-cased level and the log file are stored and the three sinks are installed at that level (errors at "ERROR") |
| Logging.LogManager.GetLogger | RadarIdentifySystem_Refactoring/models/utils/log_manager.py:132-149 | an error before setup; the back end's logger for a missing or empty name; a bound logger otherwise |
| Logging.LogManager.SetLevel | RadarIdentifySystem_Refactoring/models/utils/log_manager.py:151-169 | an error before setup, an error with the level unchanged for an invalid name, otherwise the upper-cased name is recorded; the installed sinks keep their levels |
| Logging.LogModule.constructor | RadarIdentifySystem_Refactoring/models/utils/log_manager.py:199-266 | importing the module leaves the global manager set up at "INFO" with the default log file and its sinks at "INFO" |
| Logging.LogModule.GetLogManager | RadarIdentifySystem_Refactoring/models/utils/log_manager.py:203-212 | the global manager is created on first use and the same one is returned afterwards |
| Logging.LogModule.SetupLogger | RadarIdentifySystem_Refactoring/models/utils/log_manager.py:215-226 | `setup` on the global manager, with the same three outcomes |
| Logging.LogModule.SetupWithConfiguredLevel | RadarIdentifySystem_Refactoring/main.py:26-27 | corrected start-up, once a configured `logLevel` item exists: the manager reports a valid configured level and reports an invalid one as an error, leaving the level unchanged when already set up; sinks installed earlier keep their levels |
| Logging.ConfiguredLevelIgnored | RadarIdentifySystem_Refactoring/main.py:26-27 | as written, once a configured `logLevel` item exists (the shown `AppConfig` defines none), the start-up's setup with the configured level is skipped: the level stays "INFO" and the sinks filter at "INFO" |
| Logging.ConfiguredLevelApplied | RadarIdentifySystem_Refactoring/main.py:26-27 | with the corrected start-up and a configured `logLevel` item, the manager reports the configured level, while the console and file sinks still filter at "INFO" |

## Left out

- Painting, handle and groove geometry, hover animations and the pixel-to-value ratio of `_posToValue`. A position reaches the model as the integer that the float ratio produced, and a hit test reaches it as a handle.
- Float arithmetic in `_alignToStep`: `round(offset / step)` is modelled exactly. For offsets beyond 2^53 the float quotient can round differently.
- Toolkit behaviour is modelled as the toolkit documents it. The base slider's `setValue` clamps into its range. `setFixedWidth` treats a negative width as 0. The scroll bar clamps its value when its maximum changes. Widths, maxima and the view widths that the layout computes are otherwise not modelled.
- The scroll animation and the snap timer: an animation is its target value, and a scheduled snap is a flag. The `scrollFinished` signal is not modelled.
- The configuration layer: validators, persistence to disk, and the `valueChanged` re-dispatch that a configuration write triggers. Each handler is one atomic update.
- TimeFlip.TimeFlipSettingCard.SetReserveValue: the combo box's own index-change signal is not followed. In the source that signal would also record the value as the remembered strategy.
- TimeFlip.TimeFlipSettingCard.constructor: this is the corrected construction. As written, a stored reserve value other than the two strategies raises at line 57; `TimeFlip.InitialComboIndex` and `TimeFlip.ReopenAfterDiscard` model that. The combo box's two strategies are required not to be "none", as in the reserve item's option list, where "none" comes third.
- TimeFlip: the caption label texts and the `procChanged`/`reserveChanged` signals are not modelled. Combo items are identified by their option, and the two strategies are required to be distinct.
- OptionsGroups: `QButtonGroup` exclusivity, the widget's `optionChanged` signal and the `optionCurent` field are not modelled.
- OptionsGroups: the tests call `_canSelectValue`, `addOptionsGroupWidget`, `removeOptionsGroupWidget`, `optionExchanged`, `optionCleared` and `updateButtonStates`, which the card does not define.
- Logging: the loguru back end, directory creation, rotation and compression, the thread-locked singleton `__new__` and `LoggerMixin` are not modelled. A successful setup returns the sinks it would install. Parsing a path string into components is not modelled.
- Logging.LogModule.SetupWithConfiguredLevel: the corrected start-up makes the manager report the configured level, but it goes through `set_level`, which only records the level (log_manager.py:168). The sinks installed at import keep "INFO" (log_manager.py:92, 110), so debug records stay filtered out. Re-levelling the sinks is code the source does not have, and the model does not invent it.
- Logging.ConfiguredLevelIgnored: the configured level is a parameter. It stands for a `logLevel` configuration item that the shown `AppConfig` (models/config/app_config.py:24-40) does not define; as written, main.py:26 raises AttributeError before the setup is reached, and the model begins where that item exists.
- Logging.ConfiguredLevelApplied: the same gap as the corrected start-up; its contract states the sinks' unchanged level.
- Logging.Upper: ASCII only. Python's `str.upper` also maps other characters (for example the dotless `ı` to `I`), so some non-ASCII spellings that the source accepts are rejected here.
- UIDimensions: the tests reference `SCROLL_AREA_MAX_WIDTH` and `SCROLL_AREA_MIN_*`, which the class does not define. The example lemma uses `SCROLL_AREA_MAX_WIDTH_PANEL` (600), which is what the code caps at.
- params_config_widget.py, the placeholder panels, window wiring, themes, icons and DPI start-up are not part of this model.

## Findings

| source | as written | input that shows it | evidently intended | confidence | as-written member | corrected member |
|---|---|---|---|---|---|---|
| RadarIdentifySystem_Refactoring/views/components/time_flip_setting_card.py:57 | the card looks up the stored reserve strategy in the two-entry option-to-text map, which fails for any other value | a reserve item holding "none", which the card itself writes when discard is chosen (line 157) | a stored "none" leaves the combo box on its first item with nothing remembered, as lines 62-64 already expect | not executed; medium | TimeFlip.ReopenAfterDiscard | TimeFlip.ReopenAfterDiscardCorrected |
| RadarIdentifySystem_Refactoring/main.py:26-27 | line 26 reads `_app_cfg.logLevel`, but the shown `AppConfig` (models/config/app_config.py:24-40) defines only `micaEnabled` and `dpiScale`, so line 26 raises AttributeError before line 27 runs; once that item exists, as test_log_level_realtime_update.py:171-172 expects, the `setup_logger` call is skipped, because importing the log manager module already set the manager up at "INFO" (log_manager.py:266) | a configured level of "DEBUG" at start-up | the manager reports the configured level after start-up, and an invalid one is reported | not executed; high | Logging.ConfiguredLevelIgnored | Logging.LogModule.SetupWithConfiguredLevel |
