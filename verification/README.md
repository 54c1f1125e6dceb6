# Rust basics: factorial and three-bit adders

A Dafny model of the arithmetic routines of a small Rust program (`src/main.rs`). The rest of that file demonstrates language features.

- `factorial_iter` is an iterative factorial over `u64`. It returns 0 for input 0, not 1. Otherwise the accumulator starts at `n` and multiplies in `1..n-1`.
- `add_3_bits_bool` is a one-bit full adder on booleans. It returns `(carry, sum)`.
- `add_3_bits_u8` is the same adder on `u8`. It panics with "Invalid Parameters" when the inputs add up to more than 3.

Rust's `u8`, `u32` and `u64` are modelled as subset types of `int`. The model follows debug-build semantics, where an arithmetic overflow panics. A panic is the `Panic` case of the `Outcome` datatype, carrying Rust's message. This makes `factorial_iter` total on every `u32`. It panics exactly when `n > 20`, because `21!` does not fit in a `u64`. `add_3_bits_u8` panics exactly when the mathematical total of its inputs exceeds 3. If the `u8` addition itself overflows, the message is Rust's "attempt to add with overflow" rather than "Invalid Parameters".

## Model

| member | source | states |
|---|---|---|
| Basics.FactorialIter | src/main.rs:195-210 | returns 0 for input 0; returns n! for 1 <= n <= 20; panics with the multiply-overflow message for every n > 20 (the loop invariant is that the accumulator equals n * (i-1)! and stays within u64) |
| Basics.FactorialOfTen | src/main.rs:176-178 | the entry point's call `factorial_iter(10)` yields 3628800 |
| Basics.FactFitsU64 | src/main.rs:204-207 | n! fits in a u64 if and only if n <= 20, so the checked multiplication overflows exactly for n > 20 |
| Basics.FactU64Boundary | src/main.rs:202-207 | 20! = 2432902008176640000 is at most u64::MAX and 21! = 51090942171709440000 exceeds it |
| Basics.ScaledFactBound | src/main.rs:202-207 | every intermediate accumulator value n * i! (for i < n) is at most n!, so if n! fits, no step overflows |
| Basics.StepProduct | src/main.rs:204-207 | one loop step, multiplying n * (i-1)! by i, gives n * i! |
| Basics.FactMonotone | src/main.rs:202-207 | the factorial is monotone: m <= n implies m! <= n! |
| Basics.BoolAsU8 | src/main.rs:219 | `b as u8` is 1 for true and 0 for false |
| Basics.Add3BitsBool | src/main.rs:218-234 | carry is true if and only if at least two inputs are true; sum is the exclusive-or of the three inputs; 2*carry + sum equals the number of true inputs |
| Basics.Add3BitsU8 | src/main.rs:242-264 | panics if and only if the input total exceeds 3: with "Invalid Parameters" when the u8 addition does not overflow, with "attempt to add with overflow" when it does; otherwise carry and sum are each 0 or 1 and 2*carry + sum equals the input total |
| Basics.AddersAgree | src/main.rs:218-264 | on inputs that are 0 or 1, the u8 adder returns the boolean adder's result under false=0, true=1 |
| Basics.AddersSymmetric | src/main.rs:218-264 | both adders are invariant under swapping any two of their arguments |
| Basics.Add3BitsU8DependsOnTotal | src/main.rs:242-264 | two u8 inputs with the same total give the same outcome, including the same panic message |
| Basics.Add3BitsU8AcceptsNonBits | src/main.rs:243-248 | inputs are not checked to be 0 or 1: (3,0,0) and (2,1,0) give (1,1), while (2,2,0) panics with "Invalid Parameters" |
| Basics.DemoBoolAddition | src/main.rs:181 | the entry point's `add_3_bits_bool(false, false, true)` yields (false, true) |
| Basics.DemoU8Addition | src/main.rs:182 | the entry point's `add_3_bits_u8(1, 0, 1)` yields (1, 0) |

## Left out

- Release-build wrap-around of the `u8` sum at src/main.rs:243: for example, `(255,1,0)` wraps to 0 and is accepted in release. The model uses debug-build semantics, where any total above 3 panics.
- Release-build wrap-around of the `u64` multiplication at src/main.rs:206: likewise, the model panics on overflow instead.
- `celcius_to_fahrenheit`, `calc_average` and the division in `cast_and_format`: floating-point arithmetic and formatting, which the model does not cover.
- `mutable_vs_immutable`, `basic_datatypes`, `compound_datatypes`, `bitwise_ops`: they print literals and the results of built-in operators. They have no logic of their own.
- `main`: console output. Only the values it computes are modelled (FactorialOfTen, DemoBoolAddition, DemoU8Addition).
- File I/O: `src/main.rs` performs none, so none is modelled.
